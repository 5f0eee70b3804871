/**
 * The insert statement of the loader and the argument list it is executed
 * with: which field of a record ends up in which column of `song_streaming`.
 */
module InsertSql {
  import opened Wrappers
  import opened Streaming

  /** A statement argument; `Null` is SQL NULL, what a nil pointer argument becomes. */
  datatype SqlValue = Text(text: string) | Integer(integer: int) | Boolean(boolean: bool) | Null

  /** The columns of `song_streaming`, in the order the insert statement lists them. */
  datatype Column =
    | Ts | Username | Platform | MsPlayed | ConnCountry | IpAddrDecrypted | UserAgentDecrypted
    | MasterMetadataTrackName | MasterMetadataAlbumArtistName | MasterMetadataAlbumName
    | SpotifyTrackUri | EpisodeName | EpisodeShowName | SpotifyEpisodeUri | ReasonStart
    | ReasonEnd | Shuffle | Skipped | Offline | OfflineTimestamp | IncognitoMode
  {
    /** The column's SQL name. */
    function Name(): string {
      match this
      case Ts => "ts"
      case Username => "username"
      case Platform => "platform"
      case MsPlayed => "ms_played"
      case ConnCountry => "conn_country"
      case IpAddrDecrypted => "ip_addr_decrypted"
      case UserAgentDecrypted => "user_agent_decrypted"
      case MasterMetadataTrackName => "master_metadata_track_name"
      case MasterMetadataAlbumArtistName => "master_metadata_album_artist_name"
      case MasterMetadataAlbumName => "master_metadata_album_name"
      case SpotifyTrackUri => "spotify_track_uri"
      case EpisodeName => "episode_name"
      case EpisodeShowName => "episode_show_name"
      case SpotifyEpisodeUri => "spotify_episode_uri"
      case ReasonStart => "reason_start"
      case ReasonEnd => "reason_end"
      case Shuffle => "shuffle"
      case Skipped => "skipped"
      case Offline => "offline"
      case OfflineTimestamp => "offline_timestamp"
      case IncognitoMode => "incognito_mode"
    }

    /** The column's 0-based position in the table definition. */
    function Ordinal(): nat {
      match this
      case Ts => 0
      case Username => 1
      case Platform => 2
      case MsPlayed => 3
      case ConnCountry => 4
      case IpAddrDecrypted => 5
      case UserAgentDecrypted => 6
      case MasterMetadataTrackName => 7
      case MasterMetadataAlbumArtistName => 8
      case MasterMetadataAlbumName => 9
      case SpotifyTrackUri => 10
      case EpisodeName => 11
      case EpisodeShowName => 12
      case SpotifyEpisodeUri => 13
      case ReasonStart => 14
      case ReasonEnd => 15
      case Shuffle => 16
      case Skipped => 17
      case Offline => 18
      case OfflineTimestamp => 19
      case IncognitoMode => 20
    }
  }

  /** One table row: column to stored value. */
  type Row = map<Column, SqlValue>

  /**
   * `INSERT INTO table (columns[0], ...) VALUES ($params[0], ...)`: the i-th
   * listed column receives the argument of placeholder `$params[i]`.
   */
  datatype Insert = Insert(table: string, columns: seq<Column>, params: seq<nat>)

  const InsertColumns: seq<Column> := [
    Ts, Username, Platform, MsPlayed, ConnCountry, IpAddrDecrypted,
    UserAgentDecrypted, MasterMetadataTrackName, MasterMetadataAlbumArtistName,
    MasterMetadataAlbumName, SpotifyTrackUri, EpisodeName, EpisodeShowName,
    SpotifyEpisodeUri, ReasonStart, ReasonEnd, Shuffle, Skipped, Offline,
    OfflineTimestamp, IncognitoMode
  ]

  const InsertParams: seq<nat> := [
    1, 2, 3, 4, 5, 6, 7, 8, 9, 10, 11, 12, 13, 14, 15, 16, 17, 18, 19, 20, 21
  ]

  /** The statement every transaction of the loader prepares. */
  const InsertSQL: Insert := Insert("song_streaming", InsertColumns, InsertParams)

  /** The statement lists each column once, with one placeholder per column. */
  predicate WellFormed(q: Insert) {
    && |q.columns| == |q.params|
    && (forall i, j :: 0 <= i < j < |q.columns| ==> q.columns[i] != q.columns[j])
    && (forall i :: 0 <= i < |q.params| ==> 1 <= q.params[i])
  }

  /** Every placeholder names one of the arguments. */
  predicate ArgsFit(q: Insert, args: seq<SqlValue>) {
    |q.columns| == |q.params| && forall i :: 0 <= i < |q.params| ==> 1 <= q.params[i] <= |args|
  }

  /** The row that executing `q` with `args` inserts, built column by column. */
  function BindColumns(columns: seq<Column>, params: seq<nat>, args: seq<SqlValue>): Row
    requires |columns| == |params|
    requires forall i :: 0 <= i < |params| ==> 1 <= params[i] <= |args|
  {
    if columns == [] then map[]
    else BindColumns(columns[1..], params[1..], args)[columns[0] := args[params[0] - 1]]
  }

  /**
   * Executing `q` with `args`: `None` when the argument list does not match
   * the placeholders (the driver refuses the call), else the inserted row.
   */
  function Bind(q: Insert, args: seq<SqlValue>): (r: Option<Row>)
    ensures r.Some? <==> |args| == |q.params| && ArgsFit(q, args)
    ensures r.Some? && WellFormed(q) ==> r.value.Keys == set c | c in q.columns
    ensures r.Some? && WellFormed(q) ==> forall i :: 0 <= i < |q.columns| ==> r.value[q.columns[i]] == args[q.params[i] - 1]
  {
    if |args| == |q.params| && ArgsFit(q, args) then
      BindWellFormed(q, args);
      Some(BindColumns(q.columns, q.params, args))
    else None
  }

  /** `BindColumnsAt` for the columns and placeholders of a well-formed statement. */
  lemma BindWellFormed(q: Insert, args: seq<SqlValue>)
    requires ArgsFit(q, args)
    ensures WellFormed(q) ==> BindColumns(q.columns, q.params, args).Keys == set c | c in q.columns
    ensures WellFormed(q) ==> forall i :: 0 <= i < |q.columns| ==>
      BindColumns(q.columns, q.params, args)[q.columns[i]] == args[q.params[i] - 1]
  {
    if WellFormed(q) {
      BindColumnsAt(q.columns, q.params, args);
    }
  }

  /** With distinct column names, column `columns[i]` holds the argument of `$params[i]`, and no other column is written. */
  lemma {:induction false} BindColumnsAt(columns: seq<Column>, params: seq<nat>, args: seq<SqlValue>)
    requires |columns| == |params|
    requires forall i :: 0 <= i < |params| ==> 1 <= params[i] <= |args|
    requires forall i, j :: 0 <= i < j < |columns| ==> columns[i] != columns[j]
    ensures BindColumns(columns, params, args).Keys == set c | c in columns
    ensures forall i :: 0 <= i < |columns| ==> BindColumns(columns, params, args)[columns[i]] == args[params[i] - 1]
  {
    if columns != [] {
      var tail := BindColumns(columns[1..], params[1..], args);
      BindColumnsAt(columns[1..], params[1..], args);
      forall i | 0 <= i < |columns|
        ensures BindColumns(columns, params, args)[columns[i]] == args[params[i] - 1]
      {
        if i > 0 {
          assert columns[i] == columns[1..][i - 1];
          assert columns[i] != columns[0];
        }
      }
      assert (set c | c in columns) == (set c | c in columns[1..]) + {columns[0]};
    }
  }

  function TextOrNull(s: Option<string>): SqlValue {
    match s
    case Some(v) => Text(v)
    case None => Null
  }

  function BoolOrNull(b: Option<bool>): SqlValue {
    match b
    case Some(v) => Boolean(v)
    case None => Null
  }

  /** The 21 arguments of `stmt.Exec` for one record, in the order the loader passes them. */
  function ExecArgs(t: SongStreaming): (args: seq<SqlValue>)
    ensures |args| == |InsertParams|
  {
    [ Text(t.ts), Text(t.username), Text(t.platform), Integer(t.msPlayed as int),
      Text(t.connCountry), Text(t.ipAddrDecrypted), Text(t.userAgentDecrypted),
      Text(t.masterMetadataTrackName), Text(t.masterMetadataAlbumArtistName),
      Text(t.masterMetadataAlbumName), Text(t.spotifyTrackUri),
      TextOrNull(t.episodeName), TextOrNull(t.episodeShowName), TextOrNull(t.spotifyEpisodeUri),
      Text(t.reasonStart), Text(t.reasonEnd), Boolean(t.shuffle), BoolOrNull(t.skipped),
      Boolean(t.offline), Integer(t.offlineTimestamp as int), Boolean(t.incognitoMode) ]
  }

  /**
   * The value a column of `song_streaming` should hold for a record, looked
   * up by the column's name: the reference the argument order is checked against.
   */
  function ColumnValue(t: SongStreaming, column: Column): SqlValue {
    match column
    case Ts => Text(t.ts)
    case Username => Text(t.username)
    case Platform => Text(t.platform)
    case MsPlayed => Integer(t.msPlayed as int)
    case ConnCountry => Text(t.connCountry)
    case IpAddrDecrypted => Text(t.ipAddrDecrypted)
    case UserAgentDecrypted => Text(t.userAgentDecrypted)
    case MasterMetadataTrackName => Text(t.masterMetadataTrackName)
    case MasterMetadataAlbumArtistName => Text(t.masterMetadataAlbumArtistName)
    case MasterMetadataAlbumName => Text(t.masterMetadataAlbumName)
    case SpotifyTrackUri => Text(t.spotifyTrackUri)
    case EpisodeName => TextOrNull(t.episodeName)
    case EpisodeShowName => TextOrNull(t.episodeShowName)
    case SpotifyEpisodeUri => TextOrNull(t.spotifyEpisodeUri)
    case ReasonStart => Text(t.reasonStart)
    case ReasonEnd => Text(t.reasonEnd)
    case Shuffle => Boolean(t.shuffle)
    case Skipped => BoolOrNull(t.skipped)
    case Offline => Boolean(t.offline)
    case OfflineTimestamp => Integer(t.offlineTimestamp as int)
    case IncognitoMode => Boolean(t.incognitoMode)
  }

  /** The row a successful Exec of `InsertSQL` inserts for `t`. */
  function RowOf(t: SongStreaming): Row {
    BindColumns(InsertColumns, InsertParams, ExecArgs(t))
  }

  /** The i-th listed column is the table's i-th column, so every column is listed once. */
  lemma {:induction false} InsertColumnsInOrder()
    ensures |InsertColumns| == |InsertParams| == 21
    ensures forall i :: 0 <= i < |InsertColumns| ==> InsertColumns[i].Ordinal() == i
    ensures forall c: Column :: c.Ordinal() < 21 && InsertColumns[c.Ordinal()] == c
  {
  }

  /** The column list of the insert statement, by SQL name, in the order the statement writes it. */
  lemma InsertColumnNames()
    ensures |InsertColumns| == 21
    ensures forall i :: 0 <= i < 21 ==> InsertColumns[i].Name() == [
      "ts", "username", "platform", "ms_played", "conn_country", "ip_addr_decrypted",
      "user_agent_decrypted", "master_metadata_track_name", "master_metadata_album_artist_name",
      "master_metadata_album_name", "spotify_track_uri", "episode_name", "episode_show_name",
      "spotify_episode_uri", "reason_start", "reason_end", "shuffle", "skipped", "offline",
      "offline_timestamp", "incognito_mode"][i]
  {
  }

  /** The insert statement names each column once and numbers its placeholders `$1` to `$21`. */
  lemma InsertSqlWellFormed()
    ensures WellFormed(InsertSQL) && |InsertColumns| == |InsertParams| == 21
    ensures forall i :: 0 <= i < |InsertParams| ==> InsertParams[i] == i + 1
  {
    InsertColumnsInOrder();
  }

  /**
   * The i-th Exec argument binds `$i`, which is the i-th listed column: the
   * row inserted for `t` has a value for every column, and each column holds
   * the field of the same name, a nil pointer becoming NULL.
   */
  lemma InsertBindsEveryColumn(t: SongStreaming)
    ensures Bind(InsertSQL, ExecArgs(t)) == Some(RowOf(t))
    ensures forall c: Column :: c in RowOf(t) && RowOf(t)[c] == ColumnValue(t, c)
  {
    ExecArgsFit(t);
    InsertSqlWellFormed();
    BindColumnsAt(InsertColumns, InsertParams, ExecArgs(t));
    InsertColumnsInOrder();
    ExecArgsFollowColumns(t);
    forall c: Column ensures c in RowOf(t) && RowOf(t)[c] == ColumnValue(t, c) {
      var i := c.Ordinal();
      assert InsertColumns[i] == c;
      assert InsertParams[i] - 1 == i;
    }
  }

  /** Executing the insert statement with a record's argument list always binds. */
  lemma ExecArgsFit(t: SongStreaming)
    ensures Bind(InsertSQL, ExecArgs(t)) == Some(RowOf(t))
  {
    InsertSqlWellFormed();
  }

  /** The Exec argument at a column's position is that column's value. */
  lemma ExecArgsFollowColumns(t: SongStreaming)
    ensures forall c: Column :: c.Ordinal() < |ExecArgs(t)| && ExecArgs(t)[c.Ordinal()] == ColumnValue(t, c)
  {
    var args := ExecArgs(t);
    forall c: Column ensures c.Ordinal() < |args| && args[c.Ordinal()] == ColumnValue(t, c) {
      if c.Ordinal() < 11 {
        ExecArgsFollowTrackColumns(t, c);
      } else {
        ExecArgsFollowPlaybackColumns(t, c);
      }
    }
  }

  /** The columns up to the track URI. */
  lemma ExecArgsFollowTrackColumns(t: SongStreaming, c: Column)
    requires c.Ordinal() < 11
    ensures c.Ordinal() < |ExecArgs(t)| && ExecArgs(t)[c.Ordinal()] == ColumnValue(t, c)
  {
    match c
    case Ts => case Username => case Platform => case MsPlayed => case ConnCountry =>
    case IpAddrDecrypted => case UserAgentDecrypted => case MasterMetadataTrackName =>
    case MasterMetadataAlbumArtistName => case MasterMetadataAlbumName => case SpotifyTrackUri =>
    case _ =>
  }

  /** The episode and playback columns. */
  lemma ExecArgsFollowPlaybackColumns(t: SongStreaming, c: Column)
    requires c.Ordinal() >= 11
    ensures c.Ordinal() < |ExecArgs(t)| && ExecArgs(t)[c.Ordinal()] == ColumnValue(t, c)
  {
    match c
    case EpisodeName => case EpisodeShowName => case SpotifyEpisodeUri => case ReasonStart =>
    case ReasonEnd => case Shuffle => case Skipped => case Offline => case OfflineTimestamp =>
    case IncognitoMode =>
    case _ =>
  }


  /** An absent `skipped` flag is stored as NULL, never as false. */
  lemma SkippedAbsentIsNull(t: SongStreaming)
    requires t.skipped == None
    ensures Skipped in RowOf(t) && RowOf(t)[Skipped] == Null
  {
    assert ColumnValue(t, Skipped) == Null;
    InsertBindsEveryColumn(t);
    assert Skipped in RowOf(t) && RowOf(t)[Skipped] == ColumnValue(t, Skipped);
  }
}
