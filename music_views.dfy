/** music/views.py: the streaming endpoint with its Range handling, play
    logging, the featured-track, reorder and delete endpoints, playlist
    membership, uploads and the settings endpoint. */
module MusicViews {
  import opened Basics
  import opened Text
  import opened CommonUtils
  import opened SoftDelete
  import opened Music
  import opened MusicSerializers

  // ======================================================= the Range header

  /** What stream_track reads from the Range header: no header (empty after
      strip), a start and an optional end, or a header that raises (an
      IndexError when there is no '-', a ValueError when `int()` fails). */
  datatype RangeSpec = NoRange | Bytes(start: nat, end: Option<nat>) | Malformed

  /** `int()` of text without a '-' is never negative. */
  lemma ParseIntNoMinus(s: string)
    requires '-' !in s
    ensures ParseInt(s).Some? ==> ParseInt(s).value >= 0
  {
    var l := StripLeft(s);
    var t := Strip(s);
    assert t == StripRight(l);
    if |t| >= 1 {
      assert t[0] == l[0] == s[|s| - |l|];
    }
  }

  /** `header.strip().replace('bytes=', '').split('-')` */
  function RangeParts(header: string): (parts: seq<string>)
    ensures |parts| >= 1 && forall i :: 0 <= i < |parts| ==> '-' !in parts[i]
  {
    Split(RemoveAll(Strip(header), "bytes="), '-')
  }

  /** Lines 80-81 on the split header: an empty start is 0, an empty end is
      open, any other text goes through `int()`. */
  function RangeOfParts(parts: seq<string>): (r: RangeSpec)
    requires forall i :: 0 <= i < |parts| ==> '-' !in parts[i]
    ensures r != NoRange
  {
    if |parts| < 2 then Malformed
    else if parts[0] != "" && ParseInt(parts[0]).None? then Malformed
    else if parts[1] != "" && ParseInt(parts[1]).None? then Malformed
    else
      ParseIntNoMinus(parts[0]);
      ParseIntNoMinus(parts[1]);
      Bytes(if parts[0] == "" then 0 else ParseInt(parts[0]).value,
            if parts[1] == "" then None else Some(ParseInt(parts[1]).value))
  }

  /** What lines 75-81 make of the Range header. */
  function ParseRangeHeader(header: string): (r: RangeSpec)
    ensures r.NoRange? <==> Strip(header) == ""
  {
    if Strip(header) == "" then NoRange else RangeOfParts(RangeParts(header))
  }

  /** A header of non-ASCII blanks, such as a NO-BREAK SPACE followed by an
      IDEOGRAPHIC SPACE, strips to nothing in Python, so the whole file is sent. */
  lemma UnicodeBlankHeaderIsNoRange()
    ensures ParseRangeHeader("\U{A0}\U{3000}").NoRange?
  {
    var h := "\U{A0}\U{3000}";
    assert StripLeft(h[1..][1..]) == [];
    assert StripLeft(h) == [];
  }

  /** A header "bytes=" + rest, where rest has no 'b' and ends in a digit or
      '-', is split like rest itself. */
  lemma PartsOfBytesHeader(rest: string)
    requires 'b' !in rest && rest != [] && !IsSpace(rest[|rest| - 1])
    ensures Strip("bytes=" + rest) != ""
    ensures RangeParts("bytes=" + rest) == Split(rest, '-')
  {
    var h := "bytes=" + rest;
    assert h[|h| - 1] == rest[|rest| - 1];
    StripUnchanged(h);
    RemoveAllPrefix("bytes=", rest);
    RemoveAllAbsent(rest, "bytes=");
  }

  /** Two '-'-free fields joined by '-' split back into those fields. */
  lemma SplitAtDash(x: string, y: string)
    requires '-' !in x && '-' !in y
    ensures Split(x + "-" + y, '-') == [x, y]
  {
    var parts := [x, y];
    assert parts[1..] == [y];
    assert Join(parts, '-') == x + "-" + y;
    JoinSplit(parts, '-');
  }

  lemma HeaderOfRest(rest: string)
    requires 'b' !in rest && rest != [] && !IsSpace(rest[|rest| - 1])
    ensures ParseRangeHeader("bytes=" + rest) == RangeOfParts(Split(rest, '-'))
  {
    PartsOfBytesHeader(rest);
  }

  lemma RangeOfNumbers(a: nat, b: nat)
    ensures '-' !in NatToString(a) && '-' !in NatToString(b)
    ensures RangeOfParts([NatToString(a), NatToString(b)]) == Bytes(a, Some(b))
  {
    var sa := NatToString(a);
    var sb := NatToString(b);
    DigitsExclude(sa, '-');
    DigitsExclude(sb, '-');
    ParseIntOfNatToString(a);
    ParseIntOfNatToString(b);
    var parts := [sa, sb];
    assert parts[0] != "" && parts[1] != "";
    assert ParseInt(parts[0]) == Some(a) && ParseInt(parts[1]) == Some(b);
  }

  lemma RangeOfStart(a: nat)
    ensures '-' !in NatToString(a)
    ensures RangeOfParts([NatToString(a), ""]) == Bytes(a, None)
  {
    var sa := NatToString(a);
    DigitsExclude(sa, '-');
    ParseIntOfNatToString(a);
    var parts := [sa, ""];
    assert parts[0] != "" && ParseInt(parts[0]) == Some(a);
  }

  lemma RangeOfEnd(b: nat)
    ensures '-' !in NatToString(b)
    ensures RangeOfParts(["", NatToString(b)]) == Bytes(0, Some(b))
  {
    var sb := NatToString(b);
    DigitsExclude(sb, '-');
    ParseIntOfNatToString(b);
    var parts := ["", sb];
    assert parts[1] != "" && ParseInt(parts[1]) == Some(b);
  }

  /** The digits after "bytes=" read back as a pair of positions. */
  lemma ParseRangeOfPositions(a: nat, b: nat)
    ensures ParseRangeHeader("bytes=" + NatToString(a) + "-" + NatToString(b)) == Bytes(a, Some(b))
  {
    var sa := NatToString(a);
    var sb := NatToString(b);
    var rest := sa + "-" + sb;
    assert "bytes=" + sa + "-" + sb == "bytes=" + rest;
    DigitsExclude(sa, 'b');
    DigitsExclude(sb, 'b');
    assert rest[|rest| - 1] == sb[|sb| - 1];
    HeaderOfRest(rest);
    RangeOfNumbers(a, b);
    SplitAtDash(sa, sb);
  }

  /** "bytes=N-" is an open range from N. */
  lemma ParseRangeOpenEnd(a: nat)
    ensures ParseRangeHeader("bytes=" + NatToString(a) + "-") == Bytes(a, None)
  {
    var sa := NatToString(a);
    var rest := sa + "-" + "";
    assert "bytes=" + sa + "-" == "bytes=" + rest;
    DigitsExclude(sa, 'b');
    HeaderOfRest(rest);
    RangeOfStart(a);
    SplitAtDash(sa, "");
  }

  /** "bytes=-N" is read as the range 0..N, not as the last N bytes. */
  lemma ParseRangeSuffixReadAsPrefix(n: nat)
    ensures ParseRangeHeader("bytes=-" + NatToString(n)) == Bytes(0, Some(n))
  {
    var sn := NatToString(n);
    var rest := "" + "-" + sn;
    assert "bytes=-" + sn == "bytes=" + rest;
    DigitsExclude(sn, 'b');
    assert rest[|rest| - 1] == sn[|sn| - 1];
    HeaderOfRest(rest);
    RangeOfEnd(n);
    SplitAtDash("", sn);
  }

  /** A header without '-' after "bytes=" has one field and raises IndexError. */
  lemma ParseRangeWithoutDash(a: nat)
    ensures ParseRangeHeader("bytes=" + NatToString(a)) == Malformed
  {
    var sa := NatToString(a);
    DigitsExclude(sa, 'b');
    DigitsExclude(sa, '-');
    PartsOfBytesHeader(sa);
  }

  // ==================================================== the streaming reply

  datatype StreamReply =
    | TrackNotFound                                  // Http404("Track not found")
    | AudioFileNotFound                              // FileNotFoundError -> Http404
    | ServerError                                    // IndexError / ValueError, not caught
    | WholeFile(body: seq<bv8>)                      // FileResponse
    | PartialContent(contentRange: string, contentLength: int, body: seq<bv8>)   // 206, Content-Length str(contentLength)
    | RangeNotSatisfiable(contentRange: string)      // 416

  function Status(r: StreamReply): nat {
    match r
    case TrackNotFound => 404
    case AudioFileNotFound => 404
    case ServerError => 500
    case WholeFile(_) => 200
    case PartialContent(_, _, _) => 206
    case RangeNotSatisfiable(_) => 416
  }

  /** The last position asked for: the given end, or `file_size - 1`. */
  function RangeEnd(end: Option<nat>, size: nat): int {
    if end.None? then size - 1 else end.value
  }

  /** The reply of lines 75-123 as written, for the file's bytes (None when
      the file is missing): the only check is that start and end are below the
      size, and the length `n = end - start + 1` goes out unchecked. On the
      buffered file `f.read(n)` reads n bytes for n >= 0 (none for n == 0, an
      empty 206), reads to the end of the file for n == -1, and raises
      ValueError for n <= -2, which line 122 does not catch: a 500. */
  function StreamAsWritten(spec: RangeSpec, file: Option<seq<bv8>>): (r: StreamReply)
    ensures r == ServerError <==>
      (spec.Malformed? ||
       (spec.Bytes? && file.Some? && spec.start < |file.value| && RangeEnd(spec.end, |file.value|) < |file.value|
        && RangeEnd(spec.end, |file.value|) - spec.start + 1 < -1))
  {
    match spec
    case Malformed => ServerError
    case NoRange => if file.None? then AudioFileNotFound else WholeFile(file.value)
    case Bytes(start, e) =>
      if file.None? then AudioFileNotFound
      else
        var f := file.value;
        var end := RangeEnd(e, |f|);
        if start >= |f| || end >= |f| then RangeNotSatisfiable("bytes */" + NatToString(|f|))
        else
          var n := end - start + 1;
          if n < -1 then ServerError
          else
            PartialContent("bytes " + NatToString(start) + "-" + NatToString(end) + "/" + NatToString(|f|),
                           n, if n == -1 then f[start..] else f[start..start + n])
  }

  /** The reply with the range also refused when it is empty (start after
      end), as the 416 branch evidently means to: every 206 then carries
      the bytes start..end and their count as Content-Length. */
  function StreamResponse(spec: RangeSpec, file: Option<seq<bv8>>): (r: StreamReply)
    ensures r == ServerError <==> spec.Malformed?
    ensures r.PartialContent? <==>
      spec.Bytes? && file.Some? && spec.start <= RangeEnd(spec.end, |file.value|) < |file.value|
    ensures r.PartialContent? ==>
      r.body == file.value[spec.start..RangeEnd(spec.end, |file.value|) + 1]
      && |r.body| >= 1 && r.contentLength == |r.body|
      && r.contentRange == "bytes " + NatToString(spec.start) + "-" + IntToString(RangeEnd(spec.end, |file.value|))
                           + "/" + NatToString(|file.value|)
    ensures r.RangeNotSatisfiable? <==>
      spec.Bytes? && file.Some? && !(spec.start <= RangeEnd(spec.end, |file.value|) < |file.value|)
    ensures r.RangeNotSatisfiable? ==> r.contentRange == "bytes */" + NatToString(|file.value|)
    ensures r.WholeFile? <==> spec.NoRange? && file.Some?
    ensures r.WholeFile? ==> r.body == file.value
    ensures r == AudioFileNotFound <==> !spec.Malformed? && file.None?
  {
    match spec
    case Malformed => ServerError
    case NoRange => if file.None? then AudioFileNotFound else WholeFile(file.value)
    case Bytes(start, e) =>
      if file.None? then AudioFileNotFound
      else
        var f := file.value;
        var end := RangeEnd(e, |f|);
        if start >= |f| || end >= |f| || start > end then RangeNotSatisfiable("bytes */" + NatToString(|f|))
        else
          PartialContent("bytes " + NatToString(start) + "-" + NatToString(end) + "/" + NatToString(|f|),
                         end - start + 1, f[start..end + 1])
  }

  /** On every range with start <= end the correction changes nothing. */
  lemma StreamAgreesOnOrderedRanges(spec: RangeSpec, file: Option<seq<bv8>>)
    requires spec.Bytes? && file.Some? ==> spec.start <= RangeEnd(spec.end, |file.value|)
    ensures StreamAsWritten(spec, file) == StreamResponse(spec, file)
  {
  }

  lemma SmallNumerals()
    ensures NatToString(1) == "1" && NatToString(3) == "3" && NatToString(5) == "5"
    ensures NatToString(10) == "10"
  {
    assert NatToString(10) == NatToString(1) + [DigitChar(0)];
  }

  /** Any header "bytes=a-b" with a == b + 2 < size: as written a 206 goes out
      with Content-Length -1 and the bytes from a to the end of the file;
      corrected, the reply is a 416. */
  lemma ReversedRangeAsWritten(f: seq<bv8>, a: nat, b: nat)
    requires a == b + 2 && a < |f|
    ensures ParseRangeHeader("bytes=" + NatToString(a) + "-" + NatToString(b)) == Bytes(a, Some(b))
    ensures StreamAsWritten(Bytes(a, Some(b)), Some(f)).PartialContent?
    ensures StreamAsWritten(Bytes(a, Some(b)), Some(f)).contentLength == b - a + 1 < 0
    ensures StreamAsWritten(Bytes(a, Some(b)), Some(f)).body == f[a..]
    ensures StreamResponse(Bytes(a, Some(b)), Some(f)) == RangeNotSatisfiable("bytes */" + NatToString(|f|))
  {
    ParseRangeOfPositions(a, b);
    assert RangeEnd(Some(b), |f|) == b;
  }

  /** Any header "bytes=a-b" with b + 3 <= a < size: as written `f.read`
      gets a count of -2 or less and raises ValueError, so the reply is a 500;
      corrected, it is a 416. */
  lemma ReversedRangeRaises(f: seq<bv8>, a: nat, b: nat)
    requires b + 3 <= a < |f|
    ensures ParseRangeHeader("bytes=" + NatToString(a) + "-" + NatToString(b)) == Bytes(a, Some(b))
    ensures StreamAsWritten(Bytes(a, Some(b)), Some(f)) == ServerError
    ensures StreamResponse(Bytes(a, Some(b)), Some(f)) == RangeNotSatisfiable("bytes */" + NatToString(|f|))
  {
    ParseRangeOfPositions(a, b);
    var e := RangeEnd(Some(b), |f|);
    assert e == b && a < |f| && e < |f| && e - a + 1 < -1;
  }

  /** The range 5..3 on a ten-byte file: as written the reply is a 206 whose
      Content-Length is -1 and whose body is the five bytes from 5 to the end
      (`f.read(-1)`); the corrected reply is a 416. */
  lemma NegativeContentLength(f: seq<bv8>)
    requires |f| == 10
    ensures StreamAsWritten(Bytes(5, Some(3)), Some(f)) == PartialContent("bytes 5-3/10", -1, f[5..])
    ensures |f[5..]| == 5
    ensures StreamResponse(Bytes(5, Some(3)), Some(f)) == RangeNotSatisfiable("bytes */10")
  {
    SmallNumerals();
    assert "bytes " + NatToString(5) + "-" + NatToString(3) + "/" + NatToString(10) == "bytes 5-3/10";
  }

  // ========================================================== play logging

  /** What log_play_history reads from the request: the authenticated user, the
      session key, and the two address headers get_client_ip looks at. */
  datatype PlayRequest = PlayRequest(
    user: Option<UserId>, sessionKey: Option<string>,
    forwardedFor: Option<string>, remoteAddr: Option<string>)

  /** The optional `duration_played` and `completed` of the request body. */
  datatype PlayData = PlayData(durationPlayed: Option<nat>, completed: Option<bool>)

  /** stream_track passes no play data. */
  const NoPlayData: PlayData := PlayData(None, None)

  /** The session key after the call: an anonymous request without one gets the
      fresh key `newKey` from `session.create()`. */
  function SessionAfter(req: PlayRequest, newKey: string): (key: Option<string>)
    requires newKey != ""
    ensures req.user.None? ==> key.Some? && key.value != ""
    ensures req.sessionKey.Some? && req.sessionKey.value != "" ==> key == req.sessionKey
  {
    if req.user.None? && (req.sessionKey.None? || req.sessionKey.value == "") then Some(newKey)
    else req.sessionKey
  }

  /** The PlayHistory row log_play_history creates. */
  function PlayRecord(req: PlayRequest, track: TrackId, data: PlayData, newKey: string, now: Time): (h: PlayHistory)
    requires newKey != ""
    ensures h.track == track && h.playedAt == now && h.user == req.user
    ensures req.user.Some? ==> h.sessionKey.None?
    ensures req.user.None? ==> h.sessionKey == SessionAfter(req, newKey) && h.sessionKey.Some?
    ensures h.ipAddress == GetClientIp(req.forwardedFor, req.remoteAddr)
    ensures h.durationPlayed == (if data.durationPlayed.None? then 0 else data.durationPlayed.value)
    ensures h.completed <==> data.completed == Some(true)
  {
    PlayHistory(
      req.user, track, now,
      if req.user.Some? then None else SessionAfter(req, newKey),
      GetClientIp(req.forwardedFor, req.remoteAddr),
      if data.durationPlayed.None? then 0 else data.durationPlayed.value,
      if data.completed.None? then false else data.completed.value)
  }

  /** log_play_history: one more play on the track, one more history row. */
  method LogPlayHistory(lib: MusicLibrary, req: PlayRequest, track: TrackId, data: PlayData,
                        newKey: string, now: Time) returns (session: Option<string>)
    requires lib.Valid() && track in lib.tracks && newKey != ""
    modifies lib
    ensures lib.Valid()
    ensures lib.tracks == CountedPlay(old(lib.tracks), track)
    ensures lib.history == old(lib.history) + [PlayRecord(req, track, data, newKey, now)]
    ensures lib.playlists == old(lib.playlists) && lib.memberships == old(lib.memberships)
    ensures lib.settings == old(lib.settings)
    ensures session == SessionAfter(req, newKey)
  {
    lib.IncrementPlayCount(track);
    lib.history := lib.history + [PlayRecord(req, track, data, newKey, now)];
    session := SessionAfter(req, newKey);
  }

  /** A live track (present and not soft-deleted), as the two play endpoints
      look it up. */
  predicate LiveTrack(tracks: map<TrackId, Track>, id: TrackId) {
    id in tracks && !tracks[id].deletion.isDeleted
  }

  /** stream_track: the play is logged before the header is even read, so a
      reply of 416, 500 or a missing file still counts a play. */
  method StreamTrack(lib: MusicLibrary, id: TrackId, req: PlayRequest, rangeHeader: string,
                     file: Option<seq<bv8>>, newKey: string, now: Time)
    returns (reply: StreamReply, session: Option<string>)
    requires lib.Valid() && newKey != ""
    modifies lib
    ensures lib.Valid()
    ensures lib.playlists == old(lib.playlists) && lib.memberships == old(lib.memberships)
    ensures lib.settings == old(lib.settings)
    ensures !LiveTrack(old(lib.tracks), id) ==>
      reply == TrackNotFound && session == req.sessionKey
      && lib.tracks == old(lib.tracks) && lib.history == old(lib.history)
    ensures LiveTrack(old(lib.tracks), id) ==>
      reply == StreamResponse(ParseRangeHeader(rangeHeader), file)
      && lib.tracks == CountedPlay(old(lib.tracks), id)
      && lib.history == old(lib.history) + [PlayRecord(req, id, NoPlayData, newKey, now)]
      && session == SessionAfter(req, newKey)
  {
    if !LiveTrack(lib.tracks, id) {
      return TrackNotFound, req.sessionKey;
    }
    session := LogPlayHistory(lib, req, id, NoPlayData, newKey, now);
    reply := StreamResponse(ParseRangeHeader(rangeHeader), file);
  }

  /** log_play */
  method LogPlay(lib: MusicLibrary, id: TrackId, req: PlayRequest, data: PlayData,
                 newKey: string, now: Time) returns (reply: Reply, session: Option<string>)
    requires lib.Valid() && newKey != ""
    modifies lib
    ensures lib.Valid()
    ensures lib.playlists == old(lib.playlists) && lib.memberships == old(lib.memberships)
    ensures lib.settings == old(lib.settings)
    ensures !LiveTrack(old(lib.tracks), id) ==>
      reply == Reply(404, "Track not found.") && session == req.sessionKey
      && lib.tracks == old(lib.tracks) && lib.history == old(lib.history)
    ensures LiveTrack(old(lib.tracks), id) ==>
      reply == Reply(200, "Play logged.")
      && lib.tracks == CountedPlay(old(lib.tracks), id)
      && lib.history == old(lib.history) + [PlayRecord(req, id, data, newKey, now)]
      && session == SessionAfter(req, newKey)
  {
    if !LiveTrack(lib.tracks, id) {
      return Reply(404, "Track not found."), req.sessionKey;
    }
    session := LogPlayHistory(lib, req, id, data, newKey, now);
    reply := Reply(200, "Play logged.");
  }

  // ======================================================= featured track

  /** The tracks after set_featured(id): every flag cleared, then `id` saved as
      featured. */
  function FeaturedOnly(tracks: map<TrackId, Track>, id: TrackId): (r: map<TrackId, Track>)
    requires id in tracks
    ensures r.Keys == tracks.Keys
    ensures forall k :: k in r ==> (r[k].isFeatured <==> k == id)
    ensures forall k :: k in r ==> r[k].(isFeatured := tracks[k].isFeatured) == tracks[k]
    ensures AtMostOneFeatured(r) && FeaturedTrack(r) == Some(id)
  {
    var cleared := ClearFeatured(tracks);
    SavedTracks(cleared, id, cleared[id].(isFeatured := true))
  }

  /** set_featured. The serializer's lookup, like the view's, does not skip
      soft-deleted tracks. */
  method SetFeatured(lib: MusicLibrary, id: int) returns (reply: Reply)
    requires lib.Valid()
    modifies lib
    ensures lib.Valid()
    ensures lib.playlists == old(lib.playlists) && lib.memberships == old(lib.memberships)
    ensures lib.history == old(lib.history) && lib.settings == old(lib.settings)
    ensures !(id >= 0 && id in old(lib.tracks)) ==>
      reply == Reply(400, "Track not found.") && lib.tracks == old(lib.tracks)
    ensures id >= 0 && id in old(lib.tracks) ==>
      lib.tracks == FeaturedOnly(old(lib.tracks), id)
      && reply == Reply(200, "Track \"" + old(lib.tracks[id]).title + "\" set as featured.")
  {
    if !(id >= 0 && id in lib.tracks) {
      return Reply(400, "Track not found.");
    }
    lib.tracks := ClearFeatured(lib.tracks);
    var t := lib.tracks[id];
    lib.SaveTrack(id, t.(isFeatured := true));
    reply := Reply(200, "Track \"" + t.title + "\" set as featured.");
  }

  // ============================================================ reordering

  /** The loop of reorder_tracks on a track table: `filter(id=...).update(
      sort_order=index)` for each listed id in turn (a bulk update, so save()
      and its featured handling do not run; an id with no row changes nothing). */
  method ReorderSteps(tracks: map<TrackId, Track>, ids: seq<TrackId>) returns (r: map<TrackId, Track>)
    requires Distinct(ids)
    ensures r.Keys == tracks.Keys
    ensures forall i :: 0 <= i < |ids| && ids[i] in tracks ==> r[ids[i]] == tracks[ids[i]].(sortOrder := i)
    ensures forall k :: k in tracks && k !in ids ==> r[k] == tracks[k]
  {
    r := tracks;
    var i := 0;
    while i < |ids|
      invariant 0 <= i <= |ids|
      invariant r.Keys == tracks.Keys
      invariant forall j :: 0 <= j < i && ids[j] in tracks ==> r[ids[j]] == tracks[ids[j]].(sortOrder := j)
      invariant forall k :: k in tracks && k !in ids[..i] ==> r[k] == tracks[k]
    {
      var id := ids[i];
      if id in r {
        r := r[id := r[id].(sortOrder := i)];
      }
      assert ids[..i + 1] == ids[..i] + [id];
      i := i + 1;
    }
    assert ids[..|ids|] == ids;
  }

  /** reorder_tracks: after validation the i-th listed track has sort order i,
      so the sort orders follow the list, and no other field or track changes. */
  method ReorderTracks(lib: MusicLibrary, ids: seq<int>) returns (reply: Reply)
    requires lib.Valid()
    modifies lib
    ensures lib.Valid()
    ensures lib.playlists == old(lib.playlists) && lib.memberships == old(lib.memberships)
    ensures lib.history == old(lib.history) && lib.settings == old(lib.settings)
    ensures ValidateTrackIds(ids, old(lib.tracks).Keys).Reject? ==>
      reply == Reply(400, ValidateTrackIds(ids, old(lib.tracks).Keys).message) && lib.tracks == old(lib.tracks)
    ensures ValidateTrackIds(ids, old(lib.tracks).Keys).Accept? ==>
      reply == Reply(200, "Tracks reordered successfully.")
      && lib.tracks.Keys == old(lib.tracks).Keys
      && (forall i :: 0 <= i < |ids| ==> lib.tracks[ids[i] as nat] == old(lib.tracks[ids[i] as nat]).(sortOrder := i))
      && (forall i, j :: 0 <= i < j < |ids| ==>
            lib.tracks[ids[i] as nat].sortOrder < lib.tracks[ids[j] as nat].sortOrder)
      && (forall k :: k in old(lib.tracks) && k !in ids ==> lib.tracks[k] == old(lib.tracks[k]))
  {
    var v := ValidateTrackIds(ids, lib.tracks.Keys);
    if v.Reject? {
      return Reply(400, v.message);
    }
    var known := seq(|ids|, i requires 0 <= i < |ids| => ids[i] as nat);
    assert known == ids;
    var r := ReorderSteps(lib.tracks, known);
    assert forall k :: k in r ==> r[k].isFeatured == lib.tracks[k].isFeatured by {
      forall k | k in r ensures r[k].isFeatured == lib.tracks[k].isFeatured {
        if k !in ids {
        } else {
          var i :| 0 <= i < |ids| && ids[i] == k;
        }
      }
    }
    lib.tracks := r;
    reply := Reply(200, "Tracks reordered successfully.");
  }

  // ============================================================== deletion

  /** delete_track: `Track.objects.get(id=...)` does not skip soft-deleted
      tracks, and the soft delete saves through Track.save, so a featured track
      stays featured, and stays the only one, after its deletion.
      (TrackManageView's queryset filters deleted tracks out, so there a deleted
      track gets 404; that view is not this method.) */
  method DeleteTrack(lib: MusicLibrary, id: TrackId, now: Time) returns (reply: Reply)
    requires lib.Valid()
    modifies lib
    ensures lib.Valid()
    ensures lib.playlists == old(lib.playlists) && lib.memberships == old(lib.memberships)
    ensures lib.history == old(lib.history) && lib.settings == old(lib.settings)
    ensures id !in old(lib.tracks) ==> reply == Reply(404, "Track not found.") && lib.tracks == old(lib.tracks)
    ensures id in old(lib.tracks) ==>
      var t := old(lib.tracks[id]);
      reply == Reply(200, "Track \"" + t.title + "\" deleted successfully.")
      && lib.tracks == SavedTracks(old(lib.tracks), id, t.(deletion := MarkDeleted(t.deletion, now)))
      && lib.tracks[id].deletion.isDeleted
      && (t.isFeatured ==> FeaturedTrack(lib.tracks) == Some(id))
  {
    if id !in lib.tracks {
      return Reply(404, "Track not found.");
    }
    var t := lib.tracks[id];
    lib.SaveTrack(id, t.(deletion := MarkDeleted(t.deletion, now)));
    reply := Reply(200, "Track \"" + t.title + "\" deleted successfully.");
  }

  // ============================================================== uploads

  /** TrackUploadView: a validated upload becomes a new track owned by the
      uploader; `id` is the key the database assigns. */
  method UploadTrack(lib: MusicLibrary, id: TrackId, u: TrackUpload, uploader: UserId) returns (reply: Reply)
    requires lib.Valid() && id !in lib.tracks
    modifies lib
    ensures lib.Valid()
    ensures lib.playlists == old(lib.playlists) && lib.memberships == old(lib.memberships)
    ensures lib.history == old(lib.history) && lib.settings == old(lib.settings)
    ensures UploadErrors(u) != [] ==> reply == Reply(400, UploadErrors(u)[0]) && lib.tracks == old(lib.tracks)
    ensures UploadErrors(u) == [] ==>
      reply.status == 201 && 0 < u.duration && lib.tracks == old(lib.tracks)[id := NewTrack(u, uploader)]
  {
    var errors := UploadErrors(u);
    if errors != [] {
      return Reply(400, errors[0]);
    }
    lib.SaveTrack(id, NewTrack(u, uploader));
    reply := Reply(201, "");
  }

  /** PlaylistListCreateView.create: the creator is the requesting user. */
  method CreatePlaylist(lib: MusicLibrary, id: PlaylistId, name: string, isPublic: bool,
                        sortOrder: nat, creator: UserId) returns (reply: Reply)
    requires lib.Valid() && id !in lib.playlists
    modifies lib
    ensures lib.Valid()
    ensures reply.status == 201
    ensures lib.playlists == old(lib.playlists)[id := NewPlaylist(name, isPublic, sortOrder, creator)]
    ensures lib.tracks == old(lib.tracks) && lib.memberships == old(lib.memberships)
    ensures lib.history == old(lib.history) && lib.settings == old(lib.settings)
  {
    lib.playlists := lib.playlists[id := NewPlaylist(name, isPublic, sortOrder, creator)];
    reply := Reply(201, "");
  }

  // ================================================== playlist membership

  predicate InPlaylist(memberships: seq<PlaylistTrack>, p: PlaylistId, t: TrackId) {
    exists i :: 0 <= i < |memberships| && memberships[i].playlist == p && memberships[i].track == t
  }

  /** The sort orders of playlist `p`'s memberships, in creation order. */
  function SortOrdersOf(memberships: seq<PlaylistTrack>, p: PlaylistId): (r: seq<nat>)
    ensures |r| == TrackCount(memberships, p)
  {
    if memberships == [] then []
    else
      var last := memberships[|memberships| - 1];
      var init := memberships[..|memberships| - 1];
      SortOrdersOf(init, p) + (if last.playlist == p then [last.sortOrder] else [])
  }

  /** The get_or_create of add_track_to_playlist: a new membership goes last
      with sort order `playlist.tracks.count()`; an existing one is kept. */
  function AddedToPlaylist(memberships: seq<PlaylistTrack>, p: PlaylistId, t: TrackId, now: Time)
    : (r: (bool, seq<PlaylistTrack>))
    ensures r.0 <==> !InPlaylist(memberships, p, t)
    ensures !r.0 ==> r.1 == memberships
  {
    if InPlaylist(memberships, p, t) then (false, memberships)
    else (true, memberships + [PlaylistTrack(p, t, TrackCount(memberships, p), now)])
  }

  /** A created membership appends the track to the playlist's track list and
      adds one to its count and the track's duration to its total; the tables
      stay consistent; every other playlist is unchanged. */
  lemma AddToPlaylistEffect(tracks: map<TrackId, Track>, playlists: map<PlaylistId, Playlist>,
                            memberships: seq<PlaylistTrack>, p: PlaylistId, t: TrackId, now: Time, q: PlaylistId)
    requires MembershipsValid(playlists, tracks, memberships) && p in playlists && t in tracks
    requires !InPlaylist(memberships, p, t)
    ensures var ms := AddedToPlaylist(memberships, p, t, now).1;
      MembershipsValid(playlists, tracks, ms)
      && MembersOf(ms, p) == MembersOf(memberships, p) + [t]
      && TrackCount(ms, p) == TrackCount(memberships, p) + 1
      && TotalDuration(tracks, ms, p) == TotalDuration(tracks, memberships, p) + tracks[t].duration
      && (q != p ==> MembersOf(ms, q) == MembersOf(memberships, q)
                     && TotalDuration(tracks, ms, q) == TotalDuration(tracks, memberships, q))
  {
    var m := PlaylistTrack(p, t, TrackCount(memberships, p), now);
    var ms := memberships + [m];
    assert AddedToPlaylist(memberships, p, t, now).1 == ms;
    MembersOfAppend(memberships, m, p);
    MembersOfAppend(memberships, m, q);
    AggregatesAppend(tracks, memberships, m, p);
    AggregatesAppend(tracks, memberships, m, q);
    forall i, j | 0 <= i < j < |ms|
      ensures ms[i].playlist != ms[j].playlist || ms[i].track != ms[j].track
    {
      if j == |memberships| {
        assert ms[i] == memberships[i];
      }
    }
  }

  lemma {:induction false} SortOrdersOfAppend(memberships: seq<PlaylistTrack>, m: PlaylistTrack, p: PlaylistId)
    ensures SortOrdersOf(memberships + [m], p) == SortOrdersOf(memberships, p) + (if m.playlist == p then [m.sortOrder] else [])
  {
    assert (memberships + [m])[..|memberships|] == memberships;
  }

  /** Sort orders 0, 1, ..., n-1 in creation order. */
  predicate Dense(orders: seq<nat>) {
    forall i :: 0 <= i < |orders| ==> orders[i] == i
  }

  /** When a playlist's sort orders are its positions, an added track takes
      the next position. */
  lemma AddKeepsPositions(memberships: seq<PlaylistTrack>, p: PlaylistId, t: TrackId, now: Time)
    requires Dense(SortOrdersOf(memberships, p)) && !InPlaylist(memberships, p, t)
    ensures Dense(SortOrdersOf(AddedToPlaylist(memberships, p, t, now).1, p))
  {
    var m := PlaylistTrack(p, t, TrackCount(memberships, p), now);
    SortOrdersOfAppend(memberships, m, p);
  }

  /** After a removal the count no longer points past the last position: with
      tracks 1 and 2 at positions 0 and 1, removing 1 and adding 3 gives two
      memberships at sort order 1. */
  lemma RemoveThenAddTies(p: PlaylistId, now: Time)
    ensures var ms := [PlaylistTrack(p, 1, 0, now), PlaylistTrack(p, 2, 1, now)];
      Dense(SortOrdersOf(ms, p))
      && SortOrdersOf(AddedToPlaylist(RemovedFromPlaylist(ms, p, 1), p, 3, now).1, p) == [1, 1]
  {
    var ms := [PlaylistTrack(p, 1, 0, now), PlaylistTrack(p, 2, 1, now)];
    assert ms[..1] == [ms[0]];
    assert [ms[0]][..0] == [];
    assert RemovedFromPlaylist([ms[0]], p, 1) == RemovedFromPlaylist([], p, 1) + [];
    var removed := RemovedFromPlaylist(ms, p, 1);
    assert removed == RemovedFromPlaylist([ms[0]], p, 1) + [ms[1]];
    assert removed == [PlaylistTrack(p, 2, 1, now)];
    assert removed[..0] == [];
    assert !InPlaylist(removed, p, 3);
    var added := removed + [PlaylistTrack(p, 3, TrackCount(removed, p), now)];
    assert AddedToPlaylist(removed, p, 3, now).1 == added;
    assert MembersOf(removed, p) == [2];
    SortOrdersOfAppend(removed, PlaylistTrack(p, 3, 1, now), p);
  }

  /** add_track_to_playlist. The lookups do not skip soft-deleted rows. */
  method AddTrackToPlaylist(lib: MusicLibrary, p: PlaylistId, t: TrackId, now: Time) returns (reply: Reply)
    requires lib.Valid()
    modifies lib
    ensures lib.Valid()
    ensures lib.tracks == old(lib.tracks) && lib.playlists == old(lib.playlists)
    ensures lib.history == old(lib.history) && lib.settings == old(lib.settings)
    ensures !(p in old(lib.playlists) && t in old(lib.tracks)) ==>
      reply == Reply(404, "Playlist or track not found.") && lib.memberships == old(lib.memberships)
    ensures p in old(lib.playlists) && t in old(lib.tracks) ==>
      var r := AddedToPlaylist(old(lib.memberships), p, t, now);
      lib.memberships == r.1
      && reply == (if r.0 then Reply(200, "Track added to \"" + old(lib.playlists[p]).name + "\".")
                   else Reply(200, "Track already in playlist."))
  {
    if !(p in lib.playlists && t in lib.tracks) {
      return Reply(404, "Playlist or track not found.");
    }
    var r := AddedToPlaylist(lib.memberships, p, t, now);
    if r.0 {
      AddToPlaylistEffect(lib.tracks, lib.playlists, lib.memberships, p, t, now, p);
      lib.memberships := r.1;
      reply := Reply(200, "Track added to \"" + lib.playlists[p].name + "\".");
    } else {
      reply := Reply(200, "Track already in playlist.");
    }
  }

  /** The memberships without the (p, t) pair; PlaylistTrack is not a
      soft-delete model, so the row really goes. */
  function RemovedFromPlaylist(memberships: seq<PlaylistTrack>, p: PlaylistId, t: TrackId)
    : (r: seq<PlaylistTrack>)
    ensures |r| <= |memberships|
    ensures forall m :: m in r <==> m in memberships && !(m.playlist == p && m.track == t)
  {
    if memberships == [] then []
    else
      var last := memberships[|memberships| - 1];
      var init := memberships[..|memberships| - 1];
      assert memberships == init + [last];
      RemovedFromPlaylist(init, p, t) + (if last.playlist == p && last.track == t then [] else [last])
  }

  /** Removing keeps every other membership in order and leaves the pair absent. */
  lemma {:induction false} RemovedKeepsOthers(memberships: seq<PlaylistTrack>, p: PlaylistId, t: TrackId)
    ensures !InPlaylist(RemovedFromPlaylist(memberships, p, t), p, t)
    ensures InPlaylist(memberships, p, t) ==>
      |RemovedFromPlaylist(memberships, p, t)| < |memberships|
    decreases |memberships|
  {
    var r := RemovedFromPlaylist(memberships, p, t);
    assert forall i :: 0 <= i < |r| ==> r[i] in r;
    if memberships != [] {
      RemovedKeepsOthers(memberships[..|memberships| - 1], p, t);
      if InPlaylist(memberships, p, t) {
        var i :| 0 <= i < |memberships| && memberships[i].playlist == p && memberships[i].track == t;
        if i < |memberships| - 1 {
          assert memberships[..|memberships| - 1][i] == memberships[i];
        }
      }
    }
  }

  /** remove_track_from_playlist */
  method RemoveTrackFromPlaylist(lib: MusicLibrary, p: PlaylistId, t: TrackId) returns (reply: Reply)
    requires lib.Valid()
    modifies lib
    ensures lib.Valid()
    ensures lib.tracks == old(lib.tracks) && lib.playlists == old(lib.playlists)
    ensures lib.history == old(lib.history) && lib.settings == old(lib.settings)
    ensures !InPlaylist(old(lib.memberships), p, t) ==>
      reply == Reply(404, "Track not in playlist.") && lib.memberships == old(lib.memberships)
    ensures InPlaylist(old(lib.memberships), p, t) ==>
      reply == Reply(200, "Track removed from playlist.")
      && lib.memberships == RemovedFromPlaylist(old(lib.memberships), p, t)
  {
    if !InPlaylist(lib.memberships, p, t) {
      return Reply(404, "Track not in playlist.");
    }
    RemovedValid(lib.playlists, lib.tracks, lib.memberships, p, t);
    lib.memberships := RemovedFromPlaylist(lib.memberships, p, t);
    reply := Reply(200, "Track removed from playlist.");
  }

  lemma {:induction false} RemovedValid(playlists: map<PlaylistId, Playlist>, tracks: map<TrackId, Track>,
                                        memberships: seq<PlaylistTrack>, p: PlaylistId, t: TrackId)
    requires MembershipsValid(playlists, tracks, memberships)
    ensures MembershipsValid(playlists, tracks, RemovedFromPlaylist(memberships, p, t))
    decreases |memberships|
  {
    if memberships != [] {
      var init := memberships[..|memberships| - 1];
      var last := memberships[|memberships| - 1];
      RemovedValid(playlists, tracks, init, p, t);
      var r0 := RemovedFromPlaylist(init, p, t);
      var r := RemovedFromPlaylist(memberships, p, t);
      if !(last.playlist == p && last.track == t) {
        assert r == r0 + [last];
        forall i | 0 <= i < |r0|
          ensures r0[i].playlist != last.playlist || r0[i].track != last.track
        {
          assert r0[i] in r0;
          var k :| 0 <= k < |init| && init[k] == r0[i];
          assert memberships[k] == init[k];
        }
        forall i | 0 <= i < |r| ensures r[i].track in tracks && r[i].playlist in playlists {
          if i < |r0| { assert r[i] == r0[i]; }
        }
        forall i, j | 0 <= i < j < |r|
          ensures r[i].playlist != r[j].playlist || r[i].track != r[j].track
        {
          if j < |r0| { assert r[i] == r0[i] && r[j] == r0[j]; }
          else { assert r[i] == r0[i]; }
        }
      }
    }
  }

  // =============================================================== settings

  /** The fields of a settings update. */
  datatype SettingsInput = SettingsInput(
    autoplayEnabled: bool, defaultVolume: int, shuffleEnabled: bool,
    repeatMode: RepeatMode, crossfadeDuration: int)

  /** MusicSettingsView.update: get_object is get_settings, so the row exists
      even when validation then fails; a valid input replaces its fields. */
  method UpdateSettings(lib: MusicLibrary, input: SettingsInput) returns (reply: Reply)
    modifies lib
    ensures lib.tracks == old(lib.tracks) && lib.playlists == old(lib.playlists)
    ensures lib.memberships == old(lib.memberships) && lib.history == old(lib.history)
    ensures SettingsPk in lib.settings && lib.settings.Keys == old(lib.settings).Keys + {SettingsPk}
    ensures forall k :: k in old(lib.settings) && k != SettingsPk ==> lib.settings[k] == old(lib.settings[k])
    ensures ValidateVolume(input.defaultVolume).Reject? ==>
      reply == Reply(400, "Volume must be between 0 and 100.")
      && lib.settings == GetOrCreateSettings(old(lib.settings)).1
    ensures ValidateVolume(input.defaultVolume).Accept? && ValidateCrossfade(input.crossfadeDuration).Reject? ==>
      reply == Reply(400, "Crossfade duration must be between 0 and 10 seconds.")
      && lib.settings == GetOrCreateSettings(old(lib.settings)).1
    ensures reply.status == 200 <==>
      ValidateVolume(input.defaultVolume).Accept? && ValidateCrossfade(input.crossfadeDuration).Accept?
    ensures reply.status == 200 ==>
      lib.settings[SettingsPk] == MusicSettings(input.autoplayEnabled, input.defaultVolume as nat,
                                                input.shuffleEnabled, input.repeatMode,
                                                input.crossfadeDuration as nat)
  {
    var _ := lib.GetSettings();
    var volume := ValidateVolume(input.defaultVolume);
    if volume.Reject? {
      return Reply(400, volume.message);
    }
    var crossfade := ValidateCrossfade(input.crossfadeDuration);
    if crossfade.Reject? {
      return Reply(400, crossfade.message);
    }
    lib.settings := lib.settings[SettingsPk := MusicSettings(
      input.autoplayEnabled, input.defaultVolume as nat, input.shuffleEnabled,
      input.repeatMode, input.crossfadeDuration as nat)];
    reply := Reply(200, "");
  }
}
