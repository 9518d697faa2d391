/** music/admin.py: the playlist duration column, the two featured-flag
    actions of TrackAdmin, the play history label and the permissions that keep
    the settings table to one row. */
module MusicAdmin {
  import opened Basics
  import opened Text
  import opened Users
  import opened Music
  import opened MusicViews

  // ------------------------------------------------- total_duration_display

  /** PlaylistAdmin.total_duration_display: `divmod` into hours, minutes and
      seconds; "hh:mm:ss" when there is at least one hour, else "mm:ss", every
      field zero-padded to two digits (more digits for 100 hours and over). */
  function TotalDurationDisplay(total: nat): (s: string)
    ensures |s| >= 5
  {
    var minutes := total / 60;
    var seconds := total % 60;
    var hours := minutes / 60;
    if hours > 0 then PadTwo(hours) + ":" + PadTwo(minutes % 60) + ":" + PadTwo(seconds)
    else PadTwo(minutes) + ":" + PadTwo(seconds)
  }

  /** Three zero-padded fields joined by ':' split back into those fields. */
  lemma SplitThreeFields(a: nat, b: nat, c: nat)
    ensures Split(PadTwo(a) + ":" + PadTwo(b) + ":" + PadTwo(c), ':') == [PadTwo(a), PadTwo(b), PadTwo(c)]
  {
    var parts := [PadTwo(a), PadTwo(b), PadTwo(c)];
    DigitsExclude(PadTwo(a), ':');
    DigitsExclude(PadTwo(b), ':');
    DigitsExclude(PadTwo(c), ':');
    assert parts[1..] == [PadTwo(b), PadTwo(c)];
    assert parts[1..][1..] == [PadTwo(c)];
    assert Join(parts[1..], ':') == PadTwo(b) + ":" + PadTwo(c);
    assert Join(parts, ':') == PadTwo(a) + ":" + PadTwo(b) + ":" + PadTwo(c);
    JoinSplit(parts, ':');
  }

  /** The column reads back as the total: with an hour or more, three digit
      fields whose last two are two-digit counts below 60 and whose value
      hours * 3600 + minutes * 60 + seconds is the total; below an hour, two
      such fields with minutes * 60 + seconds equal to the total. */
  lemma TotalDurationDisplayRoundTrip(total: nat)
    ensures var parts := Split(TotalDurationDisplay(total), ':');
      && (forall i :: 0 <= i < |parts| ==> AllDigits(parts[i]))
      && (total >= 3600 ==>
            |parts| == 3 && |parts[1]| == 2 && |parts[2]| == 2
            && DigitsValue(parts[1]) < 60 && DigitsValue(parts[2]) < 60
            && DigitsValue(parts[0]) * 3600 + DigitsValue(parts[1]) * 60 + DigitsValue(parts[2]) == total)
      && (total < 3600 ==>
            |parts| == 2 && |parts[0]| == 2 && |parts[1]| == 2
            && DigitsValue(parts[0]) < 60 && DigitsValue(parts[1]) < 60
            && DigitsValue(parts[0]) * 60 + DigitsValue(parts[1]) == total)
  {
    var m := total / 60;
    var s := total % 60;
    var h := m / 60;
    ClockFields(total);
    if h > 0 {
      assert TotalDurationDisplay(total) == PadTwo(h) + ":" + PadTwo(m % 60) + ":" + PadTwo(s);
      ThreeFieldsRoundTrip(h, m % 60, s);
    } else {
      assert TotalDurationDisplay(total) == PadTwo(m) + ":" + PadTwo(s);
      TwoFieldsRoundTrip(m, s);
    }
  }

  /** Three padded fields read back as their values. */
  lemma ThreeFieldsRoundTrip(a: nat, b: nat, c: nat)
    requires b < 60 && c < 60
    ensures var parts := Split(PadTwo(a) + ":" + PadTwo(b) + ":" + PadTwo(c), ':');
      && |parts| == 3 && (forall i :: 0 <= i < |parts| ==> AllDigits(parts[i]))
      && |parts[1]| == 2 && |parts[2]| == 2
      && DigitsValue(parts[0]) == a && DigitsValue(parts[1]) == b && DigitsValue(parts[2]) == c
  {
    SplitThreeFields(a, b, c);
    PadTwoRoundTrip(a);
    PadTwoRoundTrip(b);
    PadTwoRoundTrip(c);
  }

  /** Two padded fields read back as their values. */
  lemma TwoFieldsRoundTrip(a: nat, b: nat)
    requires a < 60 && b < 60
    ensures var parts := Split(PadTwo(a) + ":" + PadTwo(b), ':');
      && |parts| == 2 && (forall i :: 0 <= i < |parts| ==> AllDigits(parts[i]))
      && |parts[0]| == 2 && |parts[1]| == 2
      && DigitsValue(parts[0]) == a && DigitsValue(parts[1]) == b
  {
    SplitTwoFields(a, b);
    PadTwoRoundTrip(a);
    PadTwoRoundTrip(b);
  }

  /** The clock arithmetic of total_duration_display. */
  lemma ClockFields(total: nat)
    ensures var m := total / 60;
      && total % 60 < 60 && m % 60 < 60
      && (m / 60 > 0 <==> total >= 3600)
      && (m / 60) * 3600 + (m % 60) * 60 + total % 60 == total
      && (m / 60 == 0 ==> m < 60 && m * 60 + total % 60 == total)
  {
    var m := total / 60;
    var s := total % 60;
    var h := m / 60;
    assert total == m * 60 + s;
    assert m == h * 60 + m % 60;
    assert h * 3600 == (h * 60) * 60;
    assert (h * 60 + m % 60) * 60 == (h * 60) * 60 + (m % 60) * 60;
  }

  /** Below an hour the playlist column has the same text as the track's
      formatted_duration; from an hour on it has more fields. */
  lemma DisplayAgreesWithFormattedDuration(total: nat)
    ensures total < 3600 <==> TotalDurationDisplay(total) == FormattedDuration(Some(total))
  {
    if total >= 3600 {
      TotalDurationDisplayRoundTrip(total);
      SplitTwoFields(total / 60, total % 60);
    }
  }

  // --------------------------------------------------------- featured actions

  /** TrackAdmin.set_as_featured on the selected rows, in the queryset's order:
      every flag is cleared by a bulk update; when the selection is not empty
      its first track is re-read and saved as featured. Returns the message
      shown to the admin, if any. */
  method SetAsFeatured(lib: MusicLibrary, selected: seq<TrackId>) returns (message: Option<string>)
    requires lib.Valid()
    requires forall i :: 0 <= i < |selected| ==> selected[i] in lib.tracks
    modifies lib
    ensures lib.Valid()
    ensures lib.playlists == old(lib.playlists) && lib.memberships == old(lib.memberships)
    ensures lib.history == old(lib.history) && lib.settings == old(lib.settings)
    ensures |selected| == 0 ==> lib.tracks == ClearFeatured(old(lib.tracks)) && message.None?
    ensures |selected| > 0 ==>
      lib.tracks == FeaturedOnly(old(lib.tracks), selected[0])
      && message == Some("\"" + old(lib.tracks[selected[0]]).title + "\" set as featured track.")
  {
    lib.tracks := ClearFeatured(lib.tracks);
    if |selected| == 0 {
      return None;
    }
    var t := lib.tracks[selected[0]];
    lib.SaveTrack(selected[0], t.(isFeatured := true));
    message := Some("\"" + t.title + "\" set as featured track.");
  }

  /** Featuring the same track twice changes nothing the second time. */
  lemma FeaturedOnlyIdempotent(tracks: map<TrackId, Track>, id: TrackId)
    requires id in tracks
    ensures FeaturedOnly(FeaturedOnly(tracks, id), id) == FeaturedOnly(tracks, id)
  {
    var once := FeaturedOnly(tracks, id);
    var twice := FeaturedOnly(once, id);
    forall k | k in twice ensures twice[k] == once[k] {
      assert twice[k].(isFeatured := once[k].isFeatured) == once[k];
    }
  }

  /** `queryset.update(is_featured=False)`: a bulk update of the selected rows
      only. */
  function Unfeatured(tracks: map<TrackId, Track>, selected: set<TrackId>): (r: map<TrackId, Track>)
    ensures r.Keys == tracks.Keys
    ensures forall k :: k in r ==> (r[k].isFeatured <==> tracks[k].isFeatured && k !in selected)
    ensures forall k :: k in r ==> r[k].(isFeatured := tracks[k].isFeatured) == tracks[k]
  {
    map k | k in tracks :: if k in selected then tracks[k].(isFeatured := false) else tracks[k]
  }

  /** Unfeaturing keeps at most one track featured: the featured track stays
      featured when it is not selected, and none is featured when it is. */
  lemma UnfeaturedFeaturedTrack(tracks: map<TrackId, Track>, selected: set<TrackId>)
    requires AtMostOneFeatured(tracks)
    ensures AtMostOneFeatured(Unfeatured(tracks, selected))
    ensures var before := FeaturedTrack(tracks);
      FeaturedTrack(Unfeatured(tracks, selected)) ==
        (if before.Some? && before.value !in selected then before else None)
  {
    var r := Unfeatured(tracks, selected);
    var before := FeaturedTrack(tracks);
    if before.Some? && before.value !in selected {
      assert r[before.value].isFeatured;
    }
  }

  /** TrackAdmin.remove_featured */
  method RemoveFeatured(lib: MusicLibrary, selected: set<TrackId>) returns (message: string)
    requires lib.Valid()
    modifies lib
    ensures lib.Valid()
    ensures lib.tracks == Unfeatured(old(lib.tracks), selected)
    ensures lib.playlists == old(lib.playlists) && lib.memberships == old(lib.memberships)
    ensures lib.history == old(lib.history) && lib.settings == old(lib.settings)
    ensures message == "Removed featured status from selected tracks."
  {
    UnfeaturedFeaturedTrack(lib.tracks, selected);
    lib.tracks := Unfeatured(lib.tracks, selected);
    message := "Removed featured status from selected tracks.";
  }

  // ------------------------------------------------------------ play history

  /** PlayHistoryAdmin.user_email: the user's email, else "Anonymous (" + the
      first 8 characters of the session key + "...)". None is the TypeError of
      slicing a missing session key. The column's format is its specification, so
      the ensures spell it out case by case; that logged rows always get a label
      is stated by LoggedRowsHaveLabel. */
  function HistoryUserLabel(users: map<UserId, User>, h: PlayHistory): (r: Option<string>)
    requires h.user.Some? ==> h.user.value in users
    ensures h.user.Some? ==> r == Some(users[h.user.value].email)
    ensures h.user.None? && h.sessionKey.None? ==> r.None?
    ensures h.user.None? && h.sessionKey.Some? ==>
      r.Some? && r.value == "Anonymous (" + Take(h.sessionKey.value, 8) + "...)"
  {
    if h.user.Some? then Some(users[h.user.value].email)
    else if h.sessionKey.None? then None
    else Some("Anonymous (" + Take(h.sessionKey.value, 8) + "...)")
  }

  /** Every row log_play_history writes has a user or a session key, so the
      column never raises on them. */
  lemma LoggedRowsHaveLabel(users: map<UserId, User>, tracks: map<TrackId, Track>,
                            history: seq<PlayHistory>, i: nat)
    requires HistoryValid(tracks, history) && i < |history|
    requires history[i].user.Some? ==> history[i].user.value in users
    ensures HistoryUserLabel(users, history[i]).Some?
  {
  }

  /** PlayHistoryAdmin.has_add_permission: history rows are never created by
      hand. */
  function HistoryAddAllowed(): (allowed: bool)
    ensures !allowed
  {
    false
  }

  /** PlayHistoryAdmin.has_change_permission: history rows are never edited. */
  function HistoryChangeAllowed(h: Option<PlayHistory>): (allowed: bool)
    ensures !allowed
  {
    false
  }

  /** What the admin may attempt on the history table: add a row, edit row
      `index`, or delete row `index` (PlayHistory is a plain model, so its
      delete removes the row). */
  datatype HistoryEvent =
    | HistoryAdd(row: PlayHistory)
    | HistoryChange(index: nat, row: PlayHistory)
    | HistoryDelete(index: nat)

  /** The history table after one admin event; add and change are refused by
      the permission hooks, delete keeps Django's default permission. */
  function HistoryAfter(history: seq<PlayHistory>, e: HistoryEvent): (r: seq<PlayHistory>)
    ensures e.HistoryAdd? || e.HistoryChange? ==> r == history
    ensures e.HistoryDelete? && e.index < |history| ==>
      r == history[..e.index] + history[e.index + 1..]
    ensures multiset(r) <= multiset(history) && |r| <= |history|
  {
    match e
    case HistoryAdd(row) => if HistoryAddAllowed() then history + [row] else history
    case HistoryChange(i, row) =>
      var target := if i < |history| then Some(history[i]) else None;
      if HistoryChangeAllowed(target) then Replaced(history, i, row) else history
    case HistoryDelete(i) =>
      if i < |history| then
        assert history == history[..i] + [history[i]] + history[i + 1..];
        history[..i] + history[i + 1..]
      else history
  }

  /** The table an edit of row `i` would leave. */
  function Replaced(history: seq<PlayHistory>, i: nat, row: PlayHistory): seq<PlayHistory> {
    if i < |history| then history[i := row] else history
  }

  function HistoryReplay(history: seq<PlayHistory>, events: seq<HistoryEvent>): seq<PlayHistory>
    decreases |events|
  {
    if events == [] then history else HistoryReplay(HistoryAfter(history, events[0]), events[1..])
  }

  /** Whatever the admin does, every history row left is one log_play_history
      wrote: the admin can only remove rows, never create or edit one. */
  lemma {:induction false} HistoryAdminOnlyRemoves(history: seq<PlayHistory>, events: seq<HistoryEvent>)
    ensures multiset(HistoryReplay(history, events)) <= multiset(history)
    ensures |HistoryReplay(history, events)| <= |history|
    decreases |events|
  {
    if events != [] {
      var next := HistoryAfter(history, events[0]);
      HistoryAdminOnlyRemoves(next, events[1..]);
    }
  }

  // ------------------------------------------------------- settings singleton

  /** MusicSettingsAdmin.has_add_permission: only while the table is empty. */
  function SettingsAddAllowed(rows: map<nat, MusicSettings>): (allowed: bool)
    ensures allowed <==> rows == map[]
  {
    !(exists k :: k in rows)
  }

  /** MusicSettingsAdmin.has_delete_permission: never. */
  function SettingsDeleteAllowed(rows: map<nat, MusicSettings>, pk: nat): (allowed: bool)
    ensures !allowed
  {
    false
  }

  /** What may happen to the settings table: an admin add (the new row's key
      chosen by the database), an admin edit of a row, an admin delete, and a
      get_settings call. */
  datatype SettingsEvent =
    | AdminAdd(pk: nat, row: MusicSettings)
    | AdminChange(pk: nat, row: MusicSettings)
    | AdminDelete(pk: nat)
    | ReadSettings

  /** The table after one event; the admin refuses what its permissions do not
      allow. */
  function SettingsAfter(rows: map<nat, MusicSettings>, e: SettingsEvent): (r: map<nat, MusicSettings>)
    ensures rows.Keys <= r.Keys
    ensures e.AdminAdd? && rows != map[] ==> r == rows
    ensures e.AdminDelete? ==> r == rows
  {
    match e
    case AdminAdd(pk, row) => if SettingsAddAllowed(rows) then rows[pk := row] else rows
    case AdminChange(pk, row) => if pk in rows then rows[pk := row] else rows
    case AdminDelete(pk) => if SettingsDeleteAllowed(rows, pk) then rows - {pk} else rows
    case ReadSettings => GetOrCreateSettings(rows).1
  }

  function SettingsReplay(rows: map<nat, MusicSettings>, events: seq<SettingsEvent>): map<nat, MusicSettings>
    decreases |events|
  {
    if events == [] then rows else SettingsReplay(SettingsAfter(rows, events[0]), events[1..])
  }

  /** No row is ever removed, and as long as an admin-added row gets key 1 (the
      first key of a fresh table) the table never holds a row other than the
      one get_settings reads. */
  lemma {:induction false} SettingsStaySingle(rows: map<nat, MusicSettings>, events: seq<SettingsEvent>)
    requires rows.Keys <= {SettingsPk}
    requires forall i :: 0 <= i < |events| && events[i].AdminAdd? ==> events[i].pk == SettingsPk
    ensures SettingsReplay(rows, events).Keys <= {SettingsPk}
    ensures rows.Keys <= SettingsReplay(rows, events).Keys
    decreases |events|
  {
    if events != [] {
      var next := SettingsAfter(rows, events[0]);
      assert next.Keys <= {SettingsPk};
      assert forall i :: 0 <= i < |events[1..]| ==> events[1..][i] == events[i + 1];
      SettingsStaySingle(next, events[1..]);
    }
  }

  /** Once get_settings has run, the admin offers no add and no delete. */
  lemma SettingsLockedAfterRead(rows: map<nat, MusicSettings>)
    ensures !SettingsAddAllowed(GetOrCreateSettings(rows).1)
    ensures GetOrCreateSettings(rows).1.Keys == rows.Keys + {SettingsPk}
  {
    assert SettingsPk in GetOrCreateSettings(rows).1;
  }

  /** The one way to two rows: a row added in the admin under any key other
      than 1 is not the row get_settings asks for, so get_settings creates a
      second one. */
  lemma SecondSettingsRow(pk: nat, row: MusicSettings)
    requires pk != SettingsPk
    ensures var added := SettingsAfter(map[], AdminAdd(pk, row));
      added.Keys == {pk} && GetOrCreateSettings(added).1.Keys == {pk, SettingsPk}
  {
  }
}
