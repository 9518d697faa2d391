/** music/models.py: tracks, playlists and their ordered memberships, the play
    history and the settings row. One `MusicLibrary` object holds the five
    tables; the views and admin actions update it. */
module Music {
  import opened Basics
  import opened Text
  import opened SoftDelete

  type TrackId = nat
  type PlaylistId = nat

  /** A Track row (BaseModel and OrderedModel). Cover image, genre, year and
      description play no part in any modelled behaviour and are not kept; the
      audio file's bytes are supplied to the streaming endpoint by its caller. */
  datatype Track = Track(
    title: string, artist: string, duration: nat, isFeatured: bool,
    uploader: UserId, playCount: nat, sortOrder: nat, deletion: Deletion)

  /** A Playlist row (BaseModel and OrderedModel). */
  datatype Playlist = Playlist(
    name: string, creator: UserId, isPublic: bool, sortOrder: nat, deletion: Deletion)

  /** A PlaylistTrack row: the through table of Playlist.tracks, unique per
      (playlist, track). */
  datatype PlaylistTrack = PlaylistTrack(
    playlist: PlaylistId, track: TrackId, sortOrder: nat, addedAt: Time)

  /** A PlayHistory row. */
  datatype PlayHistory = PlayHistory(
    user: Option<UserId>, track: TrackId, playedAt: Time, sessionKey: Option<string>,
    ipAddress: Option<string>, durationPlayed: nat, completed: bool)

  /** The three choices of MusicSettings.repeat_mode ('none', 'one', 'all'). */
  datatype RepeatMode = NoRepeat | RepeatOne | RepeatAll

  datatype MusicSettings = MusicSettings(
    autoplayEnabled: bool, defaultVolume: nat, shuffleEnabled: bool,
    repeatMode: RepeatMode, crossfadeDuration: nat)

  /** The field defaults of a MusicSettings row. */
  const DefaultSettings: MusicSettings := MusicSettings(true, 70, false, NoRepeat, 0)

  /** The primary key get_settings asks for. */
  const SettingsPk: nat := 1

  // ------------------------------------------------------------ featured flag

  predicate AtMostOneFeatured(tracks: map<TrackId, Track>) {
    forall a, b :: a in tracks && b in tracks && tracks[a].isFeatured && tracks[b].isFeatured ==> a == b
  }

  /** `Track.objects.filter(is_featured=True).update(is_featured=False)` (and the
      unfiltered `Track.objects.update(is_featured=False)`, which has the same
      effect): a bulk update of every row, soft-deleted ones included. */
  function ClearFeatured(tracks: map<TrackId, Track>): (r: map<TrackId, Track>)
    ensures r.Keys == tracks.Keys
    ensures forall k :: k in r ==> !r[k].isFeatured && r[k].(isFeatured := tracks[k].isFeatured) == tracks[k]
  {
    map k | k in tracks :: tracks[k].(isFeatured := false)
  }

  /** Track.save: writing row `id` as `t`; when `t` is featured every stored
      featured flag is cleared first, so `t` ends up the only featured track.
      A non-featured save touches no other row. */
  function SavedTracks(tracks: map<TrackId, Track>, id: TrackId, t: Track): (r: map<TrackId, Track>)
    ensures r.Keys == tracks.Keys + {id} && r[id] == t
    ensures t.isFeatured ==> forall k :: k in r ==> (r[k].isFeatured <==> k == id)
    ensures t.isFeatured ==>
      forall k :: k in tracks && k != id ==> r[k] == tracks[k].(isFeatured := false)
    ensures !t.isFeatured ==> forall k :: k in tracks && k != id ==> r[k] == tracks[k]
    ensures AtMostOneFeatured(tracks) ==> AtMostOneFeatured(r)
  {
    (if t.isFeatured then ClearFeatured(tracks) else tracks)[id := t]
  }

  /** increment_play_count: `filter(id=...).update(play_count=F('play_count') + 1)`;
      an id with no row updates nothing. */
  function CountedPlay(tracks: map<TrackId, Track>, id: TrackId): (r: map<TrackId, Track>)
    ensures r.Keys == tracks.Keys
    ensures id in tracks ==>
      r[id].playCount == tracks[id].playCount + 1 && r[id].(playCount := tracks[id].playCount) == tracks[id]
    ensures forall k :: k in tracks && k != id ==> r[k] == tracks[k]
    ensures AtMostOneFeatured(tracks) ==> AtMostOneFeatured(r)
  {
    if id in tracks then tracks[id := tracks[id].(playCount := tracks[id].playCount + 1)] else tracks
  }

  /** Track.get_featured_track: `filter(is_featured=True).first()`; under the
      single-featured invariant the row is unique (soft-deleted rows are not
      excluded). */
  function FeaturedTrack(tracks: map<TrackId, Track>): (r: Option<TrackId>)
    requires AtMostOneFeatured(tracks)
    ensures r.Some? ==> r.value in tracks && tracks[r.value].isFeatured
    ensures r.None? <==> forall k :: k in tracks ==> !tracks[k].isFeatured
  {
    if exists k :: k in tracks && tracks[k].isFeatured then
      var k :| k in tracks && tracks[k].isFeatured;
      Some(k)
    else None
  }

  // --------------------------------------------------------- formatted_duration

  /** Track.formatted_duration: minutes and seconds, each padded to two digits. */
  function FormattedDuration(duration: Option<nat>): (s: string)
    ensures |s| >= 5
    ensures duration.None? ==> s == "00:00"
    ensures duration.Some? && duration.value < 6000 ==> |s| == 5
  {
    if duration.None? then "00:00"
    else PadTwo(duration.value / 60) + ":" + PadTwo(duration.value % 60)
  }

  /** Two zero-padded fields joined by ':' split back into those fields. */
  lemma SplitTwoFields(a: nat, b: nat)
    ensures Split(PadTwo(a) + ":" + PadTwo(b), ':') == [PadTwo(a), PadTwo(b)]
  {
    var parts := [PadTwo(a), PadTwo(b)];
    DigitsExclude(PadTwo(a), ':');
    DigitsExclude(PadTwo(b), ':');
    assert parts[1..] == [PadTwo(b)];
    assert Join(parts, ':') == PadTwo(a) + ":" + PadTwo(b);
    JoinSplit(parts, ':');
  }

  /** The text reads back as the duration: two digit fields, the second a
      two-digit count of seconds below 60, and minutes * 60 + seconds is the
      duration (zero when there is none). */
  lemma FormattedDurationRoundTrip(duration: Option<nat>)
    ensures var parts := Split(FormattedDuration(duration), ':');
      |parts| == 2 && AllDigits(parts[0]) && AllDigits(parts[1]) && |parts[1]| == 2
      && DigitsValue(parts[1]) < 60
      && DigitsValue(parts[0]) * 60 + DigitsValue(parts[1]) == (if duration.None? then 0 else duration.value)
  {
    var d := if duration.None? then 0 else duration.value;
    assert FormattedDuration(duration) == PadTwo(d / 60) + ":" + PadTwo(d % 60);
    SplitTwoFields(d / 60, d % 60);
    PadTwoRoundTrip(d / 60);
    PadTwoRoundTrip(d % 60);
  }

  // ----------------------------------------------------- playlist aggregates

  /** The tracks of playlist `p`, in the order their memberships were created. */
  function MembersOf(memberships: seq<PlaylistTrack>, p: PlaylistId): (r: seq<TrackId>)
    ensures |r| <= |memberships|
    ensures forall t :: t in r <==> exists i :: 0 <= i < |memberships| && memberships[i].playlist == p
                                                 && memberships[i].track == t
  {
    if memberships == [] then []
    else
      var last := memberships[|memberships| - 1];
      var init := memberships[..|memberships| - 1];
      assert forall i :: 0 <= i < |init| ==> init[i] == memberships[i];
      MembersOf(init, p) + (if last.playlist == p then [last.track] else [])
  }

  function SumDurations(tracks: map<TrackId, Track>, ids: seq<TrackId>): nat
    requires forall i :: 0 <= i < |ids| ==> ids[i] in tracks
  {
    if ids == [] then 0 else SumDurations(tracks, ids[..|ids| - 1]) + tracks[ids[|ids| - 1]].duration
  }

  predicate TracksKnown(tracks: map<TrackId, Track>, memberships: seq<PlaylistTrack>) {
    forall i :: 0 <= i < |memberships| ==> memberships[i].track in tracks
  }

  /** Playlist.track_count: the number of its memberships. */
  function TrackCount(memberships: seq<PlaylistTrack>, p: PlaylistId): (r: nat)
    ensures r <= |memberships|
    ensures r == 0 <==> forall i :: 0 <= i < |memberships| ==> memberships[i].playlist != p
  {
    var ms := MembersOf(memberships, p);
    assert ms != [] ==> ms[0] in ms;
    assert forall i :: 0 <= i < |memberships| && memberships[i].playlist == p ==> memberships[i].track in ms;
    |ms|
  }

  /** Playlist.total_duration: the sum of its tracks' durations, 0 for an empty
      playlist (`aggregate(Sum(...))` gives None there). Soft-deleted tracks
      still count. */
  function TotalDuration(tracks: map<TrackId, Track>, memberships: seq<PlaylistTrack>, p: PlaylistId): (r: nat)
    requires TracksKnown(tracks, memberships)
    ensures TrackCount(memberships, p) == 0 ==> r == 0
  {
    MembersKnown(tracks, memberships, p);
    SumDurations(tracks, MembersOf(memberships, p))
  }

  lemma MembersKnown(tracks: map<TrackId, Track>, memberships: seq<PlaylistTrack>, p: PlaylistId)
    requires TracksKnown(tracks, memberships)
    ensures forall i :: 0 <= i < |MembersOf(memberships, p)| ==> MembersOf(memberships, p)[i] in tracks
  {
    var ids := MembersOf(memberships, p);
    forall i | 0 <= i < |ids| ensures ids[i] in tracks {
      assert ids[i] in ids;
    }
  }

  lemma {:induction false} MembersOfAppend(memberships: seq<PlaylistTrack>, m: PlaylistTrack, p: PlaylistId)
    ensures MembersOf(memberships + [m], p) == MembersOf(memberships, p) + (if m.playlist == p then [m.track] else [])
  {
    assert (memberships + [m])[..|memberships|] == memberships;
  }

  /** A playlist with no membership has no track and lasts 0 seconds. */
  lemma {:induction false} EmptyPlaylist(tracks: map<TrackId, Track>, memberships: seq<PlaylistTrack>, p: PlaylistId)
    requires TracksKnown(tracks, memberships)
    requires forall i :: 0 <= i < |memberships| ==> memberships[i].playlist != p
    ensures TrackCount(memberships, p) == 0 && TotalDuration(tracks, memberships, p) == 0
    decreases |memberships|
  {
    if memberships != [] {
      EmptyPlaylist(tracks, memberships[..|memberships| - 1], p);
    }
    assert MembersOf(memberships, p) == [];
    assert TotalDuration(tracks, memberships, p) == SumDurations(tracks, []);
  }

  /** Appending a membership of `p` adds one track and that track's duration;
      a membership of another playlist changes neither aggregate. */
  lemma {:induction false} AggregatesAppend(tracks: map<TrackId, Track>, memberships: seq<PlaylistTrack>,
                                            m: PlaylistTrack, p: PlaylistId)
    requires TracksKnown(tracks, memberships) && m.track in tracks
    ensures TracksKnown(tracks, memberships + [m])
    ensures TrackCount(memberships + [m], p) == TrackCount(memberships, p) + (if m.playlist == p then 1 else 0)
    ensures TotalDuration(tracks, memberships + [m], p)
         == TotalDuration(tracks, memberships, p) + (if m.playlist == p then tracks[m.track].duration else 0)
  {
    MembersOfAppend(memberships, m, p);
    MembersKnown(tracks, memberships, p);
    MembersKnown(tracks, memberships + [m], p);
    var ids := MembersOf(memberships, p);
    if m.playlist == p {
      var ids' := ids + [m.track];
      assert ids'[..|ids|] == ids;
      assert TotalDuration(tracks, memberships + [m], p) == SumDurations(tracks, ids');
      assert SumDurations(tracks, ids') == SumDurations(tracks, ids) + tracks[m.track].duration;
      assert TotalDuration(tracks, memberships, p) == SumDurations(tracks, ids);
    } else {
      assert MembersOf(memberships + [m], p) == ids;
      assert TotalDuration(tracks, memberships + [m], p) == SumDurations(tracks, ids);
      assert TotalDuration(tracks, memberships, p) == SumDurations(tracks, ids);
    }
  }

  /** With every track at most `bound` seconds long, a playlist lasts at most
      `bound` times its track count. */
  lemma {:induction false} SumDurationsAtMost(tracks: map<TrackId, Track>, ids: seq<TrackId>, bound: nat)
    requires forall i :: 0 <= i < |ids| ==> ids[i] in tracks
    requires forall k :: k in tracks ==> tracks[k].duration <= bound
    ensures SumDurations(tracks, ids) <= bound * |ids|
  {
    if ids != [] {
      var init := ids[..|ids| - 1];
      var n := |init|;
      SumDurationsAtMost(tracks, init, bound);
      assert SumDurations(tracks, ids) == SumDurations(tracks, init) + tracks[ids[n]].duration;
      assert bound * (n + 1) == bound * n + bound;
    }
  }

  lemma TotalDurationAtMost(tracks: map<TrackId, Track>, memberships: seq<PlaylistTrack>, p: PlaylistId, bound: nat)
    requires TracksKnown(tracks, memberships)
    requires forall k :: k in tracks ==> tracks[k].duration <= bound
    ensures TotalDuration(tracks, memberships, p) <= bound * TrackCount(memberships, p)
  {
    MembersKnown(tracks, memberships, p);
    SumDurationsAtMost(tracks, MembersOf(memberships, p), bound);
  }

  // ------------------------------------------------------------ get_settings

  /** MusicSettings.get_settings: `get_or_create(pk=1)`. The row with key 1 is
      returned; it is created with the field defaults when missing, and no other
      row is touched. */
  function GetOrCreateSettings(rows: map<nat, MusicSettings>): (r: (MusicSettings, map<nat, MusicSettings>))
    ensures r.1.Keys == rows.Keys + {SettingsPk} && r.0 == r.1[SettingsPk]
    ensures forall k :: k in rows ==> r.1[k] == rows[k]
    ensures SettingsPk !in rows ==> r.0 == DefaultSettings
  {
    if SettingsPk in rows then (rows[SettingsPk], rows)
    else (DefaultSettings, rows[SettingsPk := DefaultSettings])
  }

  /** A second call changes nothing and returns the same row. */
  lemma GetSettingsIdempotent(rows: map<nat, MusicSettings>)
    ensures GetOrCreateSettings(GetOrCreateSettings(rows).1) == GetOrCreateSettings(rows)
  {
    var r := GetOrCreateSettings(rows);
    assert SettingsPk in r.1 && r.1[SettingsPk] == r.0;
  }

  // ------------------------------------------------------------ the tables

  /** The memberships refer to existing playlists and tracks and no pair occurs
      twice (`unique_together`). */
  predicate MembershipsValid(playlists: map<PlaylistId, Playlist>, tracks: map<TrackId, Track>,
                             memberships: seq<PlaylistTrack>) {
    TracksKnown(tracks, memberships)
    && (forall i :: 0 <= i < |memberships| ==> memberships[i].playlist in playlists)
    && (forall i, j :: 0 <= i < j < |memberships| ==>
          memberships[i].playlist != memberships[j].playlist || memberships[i].track != memberships[j].track)
  }

  /** Every play history row names an existing track and either a user or a
      session key. */
  predicate HistoryValid(tracks: map<TrackId, Track>, history: seq<PlayHistory>) {
    forall i :: 0 <= i < |history| ==>
      history[i].track in tracks && (history[i].user.Some? || history[i].sessionKey.Some?)
  }

  predicate LibraryValid(tracks: map<TrackId, Track>, playlists: map<PlaylistId, Playlist>,
                         memberships: seq<PlaylistTrack>, history: seq<PlayHistory>) {
    AtMostOneFeatured(tracks) && MembershipsValid(playlists, tracks, memberships)
    && HistoryValid(tracks, history)
  }

  class MusicLibrary {
    var tracks: map<TrackId, Track>
    var playlists: map<PlaylistId, Playlist>
    var memberships: seq<PlaylistTrack>
    var history: seq<PlayHistory>
    var settings: map<nat, MusicSettings>

    ghost predicate Valid()
      reads this
    {
      LibraryValid(tracks, playlists, memberships, history)
    }

    constructor ()
      ensures Valid()
      ensures tracks == map[] && playlists == map[] && memberships == [] && history == []
      ensures settings == map[]
    {
      tracks := map[];
      playlists := map[];
      memberships := [];
      history := [];
      settings := map[];
    }

    /** Track.save */
    method SaveTrack(id: TrackId, t: Track)
      requires Valid()
      modifies this
      ensures Valid()
      ensures tracks == SavedTracks(old(tracks), id, t)
      ensures playlists == old(playlists) && memberships == old(memberships)
      ensures history == old(history) && settings == old(settings)
    {
      tracks := SavedTracks(tracks, id, t);
    }

    /** Track.increment_play_count */
    method IncrementPlayCount(id: TrackId)
      requires Valid()
      modifies this
      ensures Valid()
      ensures tracks == CountedPlay(old(tracks), id)
      ensures playlists == old(playlists) && memberships == old(memberships)
      ensures history == old(history) && settings == old(settings)
    {
      tracks := CountedPlay(tracks, id);
    }

    /** MusicSettings.get_settings */
    method GetSettings() returns (s: MusicSettings)
      modifies this
      ensures (s, settings) == GetOrCreateSettings(old(settings))
      ensures tracks == old(tracks) && playlists == old(playlists)
      ensures memberships == old(memberships) && history == old(history)
    {
      var r := GetOrCreateSettings(settings);
      s := r.0;
      settings := r.1;
    }
  }
}
