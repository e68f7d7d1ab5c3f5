/** The connector's static schema: the seven tables it offers and the two
    predefined joins between them. */
module Schema {
  import opened Wrappers
  import Mapping

  datatype Column = Column(id: string, alias: Option<string>, dataType: string, filterable: bool)
  datatype ForeignKey = ForeignKey(tableId: string, columnId: string)
  datatype Table = Table(id: string, alias: string, description: Option<string>, columns: seq<Column>,
                         joinOnly: bool, foreignKey: Option<ForeignKey>)
  datatype TableRef = TableRef(id: string, alias: string)
  datatype JoinSide = JoinSide(tableAlias: string, columnId: string)
  datatype Join = Join(left: JoinSide, right: JoinSide, joinType: string)
  datatype Connection = Connection(alias: string, tables: seq<TableRef>, joins: seq<Join>)
  datatype Schema = Schema(tables: seq<Table>, standardConnections: seq<Connection>)

  const TOP_ARTISTS := Table("topArtists", "Top Artists", None, [
    Column("followers", Some("Followers"), "int", false),
    Column("genre1", None, "string", false), Column("genre2", None, "string", false), Column("href", None, "string", false), Column("id", None, "string", false),
    Column("image_link", None, "string", false), Column("name", None, "string", false), Column("popularity", None, "string", false), Column("uri", None, "string", false)
  ], false, None)

  const TOP_TRACKS := Table("topTracks", "Top Tracks", None, [
    Column("id", None, "string", false), Column("album_id", None, "string", false), Column("artist_id", None, "string", false), Column("artist_name", None, "string", false),
    Column("duration_ms", None, "int", false), Column("explicit", None, "bool", false), Column("href", None, "string", false), Column("name", None, "string", false),
    Column("preview_url", None, "string", false), Column("track_number", None, "int", false), Column("uri", None, "string", false)
  ], false, None)

  const ALBUMS := Table("albums", "Albums", None, [
    Column("id", None, "string", false), Column("added_at", None, "datetime", false), Column("artist_id", None, "string", false), Column("genre1", None, "string", false),
    Column("genre2", None, "string", false), Column("href", None, "string", false), Column("image_link", None, "string", false), Column("name", None, "string", false),
    Column("popularity", None, "string", false), Column("release_date", None, "date", false), Column("type", None, "string", false), Column("uri", None, "string", false)
  ], false, None)

  const TRACKS := Table("tracks", "Tracks", None, [
    Column("id", Some("Track Id"), "string", false), Column("added_at", Some("Added At Time"), "datetime", false),
    Column("album_id", Some("Album Id"), "string", false), Column("artist_id", Some("Artist Id"), "string", false),
    Column("artist_name", Some("Artist Name"), "string", false), Column("duration_ms", Some("Song Duration (ms)"), "int", false),
    Column("explicit", Some("Is Explicit"), "bool", false), Column("href", Some("Link to Track"), "string", false),
    Column("name", Some("Name"), "string", false), Column("preview_url", Some("Track Preview Url"), "string", false),
    Column("track_number", Some("Track Number"), "int", false), Column("uri", Some("Launch Spotify Link"), "string", false)
  ], false, None)

  const TRACKS_FEATURES := Table("tracksFeatures", "Tracks Features", Some("This table can only be joined with Tracks table"), [
    Column("id", Some("Track Id"), "string", true),
    Column("danceability", Some("Danceability"), "float", false), Column("energy", Some("Energy"), "float", false),
    Column("key", Some("Key"), "string", false), Column("loudness", Some("Loudness (dB)"), "float", false),
    Column("mode", Some("Mode (Major or Minor)"), "string", false), Column("speechiness", Some("Speechiness"), "float", false),
    Column("acousticness", Some("Acousticness"), "float", false), Column("instrumentalness", Some("Instrumentalness"), "float", false),
    Column("liveness", Some("Liveness"), "float", false), Column("valence", Some("Valence (Musical Positiveness)"), "float", false),
    Column("tempo", Some("Tempo (Beats per Minute)"), "float", false), Column("time_signature", Some("Time Signature"), "string", false)
  ], true, Some(ForeignKey("tracks", "id")))

  /** The columns of both artist tables. */
  const ARTIST_COLUMNS := [
    Column("id", None, "string", true),
    Column("followers", None, "int", false), Column("genre1", None, "string", false), Column("genre2", None, "string", false), Column("href", None, "string", false),
    Column("image_link", None, "string", false), Column("name", None, "string", false), Column("popularity", None, "string", false), Column("uri", None, "string", false)
  ]

  const TRACKS_ARTISTS := Table("tracksArtists", "Tracks Artists", Some("This table can only be joined with Tracks table"),
    ARTIST_COLUMNS, true, Some(ForeignKey("tracks", "artist_id")))

  const ALBUMS_ARTISTS := Table("albumsArtists", "Albums Artists", Some("This table can only be joined with Albums table"),
    ARTIST_COLUMNS, true, Some(ForeignKey("albums", "artist_id")))

  const ARTISTS_AND_TRACKS := Connection("Artists and Tracks",
    [TableRef("tracks", "Tracks"), TableRef("tracksFeatures", "Features"), TableRef("tracksArtists", "Artists")],
    [Join(JoinSide("Tracks", "artist_id"), JoinSide("Artists", "id"), "inner"),
     Join(JoinSide("Tracks", "id"), JoinSide("Features", "id"), "inner")])

  const ARTISTS_AND_ALBUMS := Connection("Artists and Albums",
    [TableRef("albums", "Albums"), TableRef("albumsArtists", "Artists")],
    [Join(JoinSide("Albums", "artist_id"), JoinSide("Artists", "id"), "inner")])

  const ADVANCED_SCHEMA := Schema(
    [TOP_ARTISTS, TOP_TRACKS, ALBUMS, TRACKS, TRACKS_FEATURES, TRACKS_ARTISTS, ALBUMS_ARTISTS],
    [ARTISTS_AND_TRACKS, ARTISTS_AND_ALBUMS])

  // ---------------------------------------------------------------------
  // Well-formedness

  predicate IsIdChar(c: char) {
    'a' <= c <= 'z' || 'A' <= c <= 'Z' || '0' <= c <= '9' || c == '_'
  }

  /** The host's id syntax `^[a-zA-Z0-9_]*$`. */
  predicate IsHostId(s: string) {
    forall k :: 0 <= k < |s| ==> IsIdChar(s[k])
  }

  predicate HasColumn(t: Table, columnId: string) {
    exists i :: 0 <= i < |t.columns| && t.columns[i].id == columnId
  }

  predicate HasTable(tables: seq<Table>, id: string) {
    exists k :: 0 <= k < |tables| && tables[k].id == id
  }

  /** Table and column ids use the host's id syntax, every column has a
      supported data type, and column ids are unique within the table. */
  predicate WellFormedTable(t: Table) {
    IsHostId(t.id) && ColumnIdsAreHostIds(t) && ColumnTypesSupported(t) && ColumnIdsDistinct(t)
  }

  /** A foreign key names an existing table and one of its columns. */
  predicate ForeignKeyResolves(tables: seq<Table>, t: Table) {
    t.foreignKey.Some? ==>
      exists k :: 0 <= k < |tables| && tables[k].id == t.foreignKey.value.tableId
                  && HasColumn(tables[k], t.foreignKey.value.columnId)
  }

  /** A join side names one of its connection's aliases, and the aliased
      table exists and has the named column. */
  predicate SideResolves(tables: seq<Table>, c: Connection, side: JoinSide) {
    exists r, k :: 0 <= r < |c.tables| && 0 <= k < |tables| && c.tables[r].alias == side.tableAlias
                   && tables[k].id == c.tables[r].id && HasColumn(tables[k], side.columnId)
  }

  /** The connection's tables exist, its aliases are unique, and both sides of every join resolve. */
  predicate WellFormedConnection(tables: seq<Table>, c: Connection) {
    (forall i :: 0 <= i < |c.tables| ==> HasTable(tables, c.tables[i].id))
    && (forall i, j :: 0 <= i < j < |c.tables| ==> c.tables[i].alias != c.tables[j].alias)
    && (forall i :: 0 <= i < |c.joins| ==> SideResolves(tables, c, c.joins[i].left) && SideResolves(tables, c, c.joins[i].right))
  }

  /** Every table is well formed, table ids are unique, foreign keys and
      predefined joins resolve. */
  predicate WellFormedSchema(s: Schema) {
    (forall i :: 0 <= i < |s.tables| ==> WellFormedTable(s.tables[i]))
    && (forall i, j :: 0 <= i < j < |s.tables| ==> s.tables[i].id != s.tables[j].id)
    && (forall i :: 0 <= i < |s.tables| ==> ForeignKeyResolves(s.tables, s.tables[i]))
    && (forall i :: 0 <= i < |s.standardConnections| ==> WellFormedConnection(s.tables, s.standardConnections[i]))
  }


  predicate ColumnIdsAreHostIds(t: Table) {
    forall i :: 0 <= i < |t.columns| ==> IsHostId(t.columns[i].id)
  }

  predicate ColumnTypesSupported(t: Table) {
    forall i :: 0 <= i < |t.columns| ==> t.columns[i].dataType in Mapping.DATA_TYPES
  }

  predicate ColumnIdsDistinct(t: Table) {
    forall i, j :: 0 <= i < j < |t.columns| ==> t.columns[i].id != t.columns[j].id
  }

  // Every id below is spelled out once; the tables' ids are then matched
  // against these spellings.
  lemma SpelledColumnIds0()
    ensures IsHostId("followers") && Mapping.IsValidIdText("followers")
    ensures IsHostId("genre1") && Mapping.IsValidIdText("genre1")
    ensures IsHostId("genre2") && Mapping.IsValidIdText("genre2")
  { }
  lemma SpelledColumnIds1()
    ensures IsHostId("href") && Mapping.IsValidIdText("href")
    ensures IsHostId("id") && Mapping.IsValidIdText("id")
    ensures IsHostId("image_link") && Mapping.IsValidIdText("image_link")
  { }
  lemma SpelledColumnIds2()
    ensures IsHostId("name") && Mapping.IsValidIdText("name")
    ensures IsHostId("popularity") && Mapping.IsValidIdText("popularity")
    ensures IsHostId("uri") && Mapping.IsValidIdText("uri")
  { }
  lemma SpelledColumnIds3()
    ensures IsHostId("album_id") && Mapping.IsValidIdText("album_id")
    ensures IsHostId("artist_id") && Mapping.IsValidIdText("artist_id")
    ensures IsHostId("artist_name") && Mapping.IsValidIdText("artist_name")
  { }
  lemma SpelledColumnIds4()
    ensures IsHostId("duration_ms") && Mapping.IsValidIdText("duration_ms")
    ensures IsHostId("explicit") && Mapping.IsValidIdText("explicit")
    ensures IsHostId("preview_url") && Mapping.IsValidIdText("preview_url")
  { }
  lemma SpelledColumnIds5()
    ensures IsHostId("track_number") && Mapping.IsValidIdText("track_number")
    ensures IsHostId("added_at") && Mapping.IsValidIdText("added_at")
    ensures IsHostId("release_date") && Mapping.IsValidIdText("release_date")
  { }
  lemma SpelledColumnIds6()
    ensures IsHostId("type") && Mapping.IsValidIdText("type")
    ensures IsHostId("danceability") && Mapping.IsValidIdText("danceability")
    ensures IsHostId("energy") && Mapping.IsValidIdText("energy")
  { }
  lemma SpelledColumnIds7()
    ensures IsHostId("key") && Mapping.IsValidIdText("key")
    ensures IsHostId("loudness") && Mapping.IsValidIdText("loudness")
    ensures IsHostId("mode") && Mapping.IsValidIdText("mode")
  { }
  lemma SpelledColumnIds8()
    ensures IsHostId("speechiness") && Mapping.IsValidIdText("speechiness")
    ensures IsHostId("acousticness") && Mapping.IsValidIdText("acousticness")
    ensures IsHostId("instrumentalness") && Mapping.IsValidIdText("instrumentalness")
  { }
  lemma SpelledColumnIds9()
    ensures IsHostId("liveness") && Mapping.IsValidIdText("liveness")
    ensures IsHostId("valence") && Mapping.IsValidIdText("valence")
    ensures IsHostId("tempo") && Mapping.IsValidIdText("tempo")
  { }
  lemma SpelledColumnIds10()
    ensures IsHostId("time_signature") && Mapping.IsValidIdText("time_signature")
  { }
  lemma SpelledTableIds0() ensures IsHostId("topArtists") && IsHostId("topTracks") && IsHostId("albums") && IsHostId("tracks") { }
  lemma SpelledTableIds1() ensures IsHostId("tracksFeatures") && IsHostId("tracksArtists") && IsHostId("albumsArtists") { }

  lemma TopArtistsIdsSpelled()
    ensures |TOP_ARTISTS.columns| == 9
    ensures TOP_ARTISTS.columns[0].id == "followers"
    ensures TOP_ARTISTS.columns[1].id == "genre1"
    ensures TOP_ARTISTS.columns[2].id == "genre2"
    ensures TOP_ARTISTS.columns[3].id == "href"
    ensures TOP_ARTISTS.columns[4].id == "id"
    ensures TOP_ARTISTS.columns[5].id == "image_link"
    ensures TOP_ARTISTS.columns[6].id == "name"
    ensures TOP_ARTISTS.columns[7].id == "popularity"
    ensures TOP_ARTISTS.columns[8].id == "uri"
  {
    var cs := TOP_ARTISTS.columns;
    assert cs[0].id == "followers" && cs[1].id == "genre1" && cs[2].id == "genre2" && cs[3].id == "href";
    assert cs[4].id == "id" && cs[5].id == "image_link" && cs[6].id == "name" && cs[7].id == "popularity";
    assert cs[8].id == "uri";
  }

  lemma TopArtistsColumnIds() ensures IsHostId(TOP_ARTISTS.id) && ColumnIdsAreHostIds(TOP_ARTISTS) {
    TopArtistsIdsSpelled();
    SpelledColumnIds0(); SpelledColumnIds1(); SpelledColumnIds2();
    SpelledTableIds0();
  }
  /** The column ids also pass the mapping engine's id test. */
  lemma TopArtistsColumnIdsValid() ensures forall i :: 0 <= i < |TOP_ARTISTS.columns| ==> Mapping.IsValidIdText(TOP_ARTISTS.columns[i].id) {
    TopArtistsIdsSpelled();
    SpelledColumnIds0(); SpelledColumnIds1(); SpelledColumnIds2();
  }
  lemma TopArtistsColumnTypes() ensures ColumnTypesSupported(TOP_ARTISTS) { }
  lemma TopArtistsColumnsDistinct() ensures ColumnIdsDistinct(TOP_ARTISTS) { TopArtistsIdsSpelled(); }

  lemma TopTracksIdsSpelled()
    ensures |TOP_TRACKS.columns| == 11
    ensures TOP_TRACKS.columns[0].id == "id"
    ensures TOP_TRACKS.columns[1].id == "album_id"
    ensures TOP_TRACKS.columns[2].id == "artist_id"
    ensures TOP_TRACKS.columns[3].id == "artist_name"
    ensures TOP_TRACKS.columns[4].id == "duration_ms"
    ensures TOP_TRACKS.columns[5].id == "explicit"
    ensures TOP_TRACKS.columns[6].id == "href"
    ensures TOP_TRACKS.columns[7].id == "name"
    ensures TOP_TRACKS.columns[8].id == "preview_url"
    ensures TOP_TRACKS.columns[9].id == "track_number"
    ensures TOP_TRACKS.columns[10].id == "uri"
  {
    var cs := TOP_TRACKS.columns;
    assert cs[0].id == "id" && cs[1].id == "album_id" && cs[2].id == "artist_id" && cs[3].id == "artist_name";
    assert cs[4].id == "duration_ms" && cs[5].id == "explicit" && cs[6].id == "href" && cs[7].id == "name";
    assert cs[8].id == "preview_url" && cs[9].id == "track_number" && cs[10].id == "uri";
  }

  lemma TopTracksColumnIds() ensures IsHostId(TOP_TRACKS.id) && ColumnIdsAreHostIds(TOP_TRACKS) {
    TopTracksIdsSpelled();
    SpelledColumnIds1(); SpelledColumnIds2(); SpelledColumnIds3(); SpelledColumnIds4(); SpelledColumnIds5();
    SpelledTableIds0();
  }
  /** The column ids also pass the mapping engine's id test. */
  lemma TopTracksColumnIdsValid() ensures forall i :: 0 <= i < |TOP_TRACKS.columns| ==> Mapping.IsValidIdText(TOP_TRACKS.columns[i].id) {
    TopTracksIdsSpelled();
    SpelledColumnIds1(); SpelledColumnIds2(); SpelledColumnIds3(); SpelledColumnIds4(); SpelledColumnIds5();
  }
  lemma TopTracksColumnTypes() ensures ColumnTypesSupported(TOP_TRACKS) { }
  lemma TopTracksColumnsDistinct() ensures ColumnIdsDistinct(TOP_TRACKS) { TopTracksIdsSpelled(); }

  lemma AlbumsIdsSpelled()
    ensures |ALBUMS.columns| == 12
    ensures ALBUMS.columns[0].id == "id"
    ensures ALBUMS.columns[1].id == "added_at"
    ensures ALBUMS.columns[2].id == "artist_id"
    ensures ALBUMS.columns[3].id == "genre1"
    ensures ALBUMS.columns[4].id == "genre2"
    ensures ALBUMS.columns[5].id == "href"
    ensures ALBUMS.columns[6].id == "image_link"
    ensures ALBUMS.columns[7].id == "name"
    ensures ALBUMS.columns[8].id == "popularity"
    ensures ALBUMS.columns[9].id == "release_date"
    ensures ALBUMS.columns[10].id == "type"
    ensures ALBUMS.columns[11].id == "uri"
  {
    var cs := ALBUMS.columns;
    assert cs[0].id == "id" && cs[1].id == "added_at" && cs[2].id == "artist_id" && cs[3].id == "genre1";
    assert cs[4].id == "genre2" && cs[5].id == "href" && cs[6].id == "image_link" && cs[7].id == "name";
    assert cs[8].id == "popularity" && cs[9].id == "release_date" && cs[10].id == "type" && cs[11].id == "uri";
  }

  lemma AlbumsColumnIds() ensures IsHostId(ALBUMS.id) && ColumnIdsAreHostIds(ALBUMS) {
    AlbumsIdsSpelled();
    SpelledColumnIds0(); SpelledColumnIds1(); SpelledColumnIds2(); SpelledColumnIds3(); SpelledColumnIds5(); SpelledColumnIds6();
    SpelledTableIds0();
  }
  /** The column ids also pass the mapping engine's id test. */
  lemma AlbumsColumnIdsValid() ensures forall i :: 0 <= i < |ALBUMS.columns| ==> Mapping.IsValidIdText(ALBUMS.columns[i].id) {
    AlbumsIdsSpelled();
    SpelledColumnIds0(); SpelledColumnIds1(); SpelledColumnIds2(); SpelledColumnIds3(); SpelledColumnIds5(); SpelledColumnIds6();
  }
  lemma AlbumsColumnTypes() ensures ColumnTypesSupported(ALBUMS) { }
  lemma AlbumsColumnsDistinct() ensures ColumnIdsDistinct(ALBUMS) { AlbumsIdsSpelled(); }

  lemma TracksIdsSpelled()
    ensures |TRACKS.columns| == 12
    ensures TRACKS.columns[0].id == "id"
    ensures TRACKS.columns[1].id == "added_at"
    ensures TRACKS.columns[2].id == "album_id"
    ensures TRACKS.columns[3].id == "artist_id"
    ensures TRACKS.columns[4].id == "artist_name"
    ensures TRACKS.columns[5].id == "duration_ms"
    ensures TRACKS.columns[6].id == "explicit"
    ensures TRACKS.columns[7].id == "href"
    ensures TRACKS.columns[8].id == "name"
    ensures TRACKS.columns[9].id == "preview_url"
    ensures TRACKS.columns[10].id == "track_number"
    ensures TRACKS.columns[11].id == "uri"
  {
    var cs := TRACKS.columns;
    assert cs[0].id == "id" && cs[1].id == "added_at" && cs[2].id == "album_id" && cs[3].id == "artist_id";
    assert cs[4].id == "artist_name" && cs[5].id == "duration_ms" && cs[6].id == "explicit" && cs[7].id == "href";
    assert cs[8].id == "name" && cs[9].id == "preview_url" && cs[10].id == "track_number" && cs[11].id == "uri";
  }

  lemma TracksColumnIds() ensures IsHostId(TRACKS.id) && ColumnIdsAreHostIds(TRACKS) {
    TracksIdsSpelled();
    SpelledColumnIds1(); SpelledColumnIds2(); SpelledColumnIds3(); SpelledColumnIds4(); SpelledColumnIds5();
    SpelledTableIds0();
  }
  /** The column ids also pass the mapping engine's id test. */
  lemma TracksColumnIdsValid() ensures forall i :: 0 <= i < |TRACKS.columns| ==> Mapping.IsValidIdText(TRACKS.columns[i].id) {
    TracksIdsSpelled();
    SpelledColumnIds1(); SpelledColumnIds2(); SpelledColumnIds3(); SpelledColumnIds4(); SpelledColumnIds5();
  }
  lemma TracksColumnTypes() ensures ColumnTypesSupported(TRACKS) { }
  lemma TracksColumnsDistinct() ensures ColumnIdsDistinct(TRACKS) { TracksIdsSpelled(); }

  lemma TracksFeaturesIdsSpelled()
    ensures |TRACKS_FEATURES.columns| == 13
    ensures TRACKS_FEATURES.columns[0].id == "id"
    ensures TRACKS_FEATURES.columns[1].id == "danceability"
    ensures TRACKS_FEATURES.columns[2].id == "energy"
    ensures TRACKS_FEATURES.columns[3].id == "key"
    ensures TRACKS_FEATURES.columns[4].id == "loudness"
    ensures TRACKS_FEATURES.columns[5].id == "mode"
    ensures TRACKS_FEATURES.columns[6].id == "speechiness"
    ensures TRACKS_FEATURES.columns[7].id == "acousticness"
    ensures TRACKS_FEATURES.columns[8].id == "instrumentalness"
    ensures TRACKS_FEATURES.columns[9].id == "liveness"
    ensures TRACKS_FEATURES.columns[10].id == "valence"
    ensures TRACKS_FEATURES.columns[11].id == "tempo"
    ensures TRACKS_FEATURES.columns[12].id == "time_signature"
  {
    var cs := TRACKS_FEATURES.columns;
    assert cs[0].id == "id" && cs[1].id == "danceability" && cs[2].id == "energy" && cs[3].id == "key";
    assert cs[4].id == "loudness" && cs[5].id == "mode" && cs[6].id == "speechiness" && cs[7].id == "acousticness";
    assert cs[8].id == "instrumentalness" && cs[9].id == "liveness" && cs[10].id == "valence" && cs[11].id == "tempo";
    assert cs[12].id == "time_signature";
  }

  lemma TracksFeaturesColumnIds() ensures IsHostId(TRACKS_FEATURES.id) && ColumnIdsAreHostIds(TRACKS_FEATURES) {
    TracksFeaturesIdsSpelled();
    SpelledColumnIds1(); SpelledColumnIds6(); SpelledColumnIds7(); SpelledColumnIds8(); SpelledColumnIds9(); SpelledColumnIds10();
    SpelledTableIds1();
  }
  /** The column ids also pass the mapping engine's id test. */
  lemma TracksFeaturesColumnIdsValid() ensures forall i :: 0 <= i < |TRACKS_FEATURES.columns| ==> Mapping.IsValidIdText(TRACKS_FEATURES.columns[i].id) {
    TracksFeaturesIdsSpelled();
    SpelledColumnIds1(); SpelledColumnIds6(); SpelledColumnIds7(); SpelledColumnIds8(); SpelledColumnIds9(); SpelledColumnIds10();
  }
  lemma TracksFeaturesColumnTypes() ensures ColumnTypesSupported(TRACKS_FEATURES) { }
  lemma TracksFeaturesColumnsDistinct() ensures ColumnIdsDistinct(TRACKS_FEATURES) { TracksFeaturesIdsSpelled(); }

  lemma ArtistIdsSpelled()
    ensures |ARTIST_COLUMNS| == 9
    ensures ARTIST_COLUMNS[0].id == "id"
    ensures ARTIST_COLUMNS[1].id == "followers"
    ensures ARTIST_COLUMNS[2].id == "genre1"
    ensures ARTIST_COLUMNS[3].id == "genre2"
    ensures ARTIST_COLUMNS[4].id == "href"
    ensures ARTIST_COLUMNS[5].id == "image_link"
    ensures ARTIST_COLUMNS[6].id == "name"
    ensures ARTIST_COLUMNS[7].id == "popularity"
    ensures ARTIST_COLUMNS[8].id == "uri"
  {
    var cs := ARTIST_COLUMNS;
    assert cs[0].id == "id" && cs[1].id == "followers" && cs[2].id == "genre1" && cs[3].id == "genre2";
    assert cs[4].id == "href" && cs[5].id == "image_link" && cs[6].id == "name" && cs[7].id == "popularity";
    assert cs[8].id == "uri";
  }

  lemma ArtistColumnIds()
    ensures forall i :: 0 <= i < |ARTIST_COLUMNS| ==> IsHostId(ARTIST_COLUMNS[i].id) && Mapping.IsValidIdText(ARTIST_COLUMNS[i].id)
  {
    ArtistIdsSpelled();
    SpelledColumnIds0(); SpelledColumnIds1(); SpelledColumnIds2();
  }
  lemma ArtistColumnsDistinct() ensures forall i, j :: 0 <= i < j < |ARTIST_COLUMNS| ==> ARTIST_COLUMNS[i].id != ARTIST_COLUMNS[j].id {
    ArtistIdsSpelled();
  }

  lemma TracksArtistsColumnIds() ensures IsHostId(TRACKS_ARTISTS.id) && ColumnIdsAreHostIds(TRACKS_ARTISTS) {
    ArtistColumnIds();
    SpelledTableIds1();
  }
  lemma TracksArtistsColumnTypes() ensures ColumnTypesSupported(TRACKS_ARTISTS) { }
  lemma TracksArtistsColumnsDistinct() ensures ColumnIdsDistinct(TRACKS_ARTISTS) { ArtistColumnsDistinct(); }

  lemma AlbumsArtistsColumnIds() ensures IsHostId(ALBUMS_ARTISTS.id) && ColumnIdsAreHostIds(ALBUMS_ARTISTS) {
    ArtistColumnIds();
    SpelledTableIds1();
  }
  lemma AlbumsArtistsColumnTypes() ensures ColumnTypesSupported(ALBUMS_ARTISTS) { }
  lemma AlbumsArtistsColumnsDistinct() ensures ColumnIdsDistinct(ALBUMS_ARTISTS) { ArtistColumnsDistinct(); }

  lemma EveryTableWellFormed()
    ensures forall i :: 0 <= i < |ADVANCED_SCHEMA.tables| ==> WellFormedTable(ADVANCED_SCHEMA.tables[i])
  {
    TopArtistsColumnIds(); TopArtistsColumnTypes(); TopArtistsColumnsDistinct();
    TopTracksColumnIds(); TopTracksColumnTypes(); TopTracksColumnsDistinct();
    AlbumsColumnIds(); AlbumsColumnTypes(); AlbumsColumnsDistinct();
    TracksColumnIds(); TracksColumnTypes(); TracksColumnsDistinct();
    TracksFeaturesColumnIds(); TracksFeaturesColumnTypes(); TracksFeaturesColumnsDistinct();
    TracksArtistsColumnIds(); TracksArtistsColumnTypes(); TracksArtistsColumnsDistinct();
    AlbumsArtistsColumnIds(); AlbumsArtistsColumnTypes(); AlbumsArtistsColumnsDistinct();
  }

  lemma TableIdsDistinct()
    ensures forall i, j :: 0 <= i < j < |ADVANCED_SCHEMA.tables| ==> ADVANCED_SCHEMA.tables[i].id != ADVANCED_SCHEMA.tables[j].id
  {
  }

  lemma ForeignKeysResolve()
    ensures forall i :: 0 <= i < |ADVANCED_SCHEMA.tables| ==> ForeignKeyResolves(ADVANCED_SCHEMA.tables, ADVANCED_SCHEMA.tables[i])
  {
    var tables := ADVANCED_SCHEMA.tables;
    TracksIdsSpelled();
    AlbumsIdsSpelled();
    assert HasColumn(tables[3], "id") by { assert tables[3].columns[0].id == "id"; }
    assert HasColumn(tables[3], "artist_id") by { assert tables[3].columns[3].id == "artist_id"; }
    assert HasColumn(tables[2], "artist_id") by { assert tables[2].columns[2].id == "artist_id"; }
  }

  /** A join side resolves when its alias is the `r`-th table reference of
      the connection, which names table `k`, whose `i`-th column it names. */
  lemma SideResolvesAt(tables: seq<Table>, c: Connection, side: JoinSide, r: nat, k: nat, i: nat)
    requires r < |c.tables| && k < |tables| && i < |tables[k].columns|
    requires c.tables[r].alias == side.tableAlias && tables[k].id == c.tables[r].id
    requires tables[k].columns[i].id == side.columnId
    ensures SideResolves(tables, c, side)
  {
  }

  lemma ArtistsAndTracksWellFormed()
    ensures WellFormedConnection(ADVANCED_SCHEMA.tables, ARTISTS_AND_TRACKS)
  {
    ArtistsAndTracksTablesExist();
    ArtistsAndTracksJoinsResolve();
  }

  lemma ArtistsAndTracksTablesExist()
    ensures forall i :: 0 <= i < |ARTISTS_AND_TRACKS.tables| ==> HasTable(ADVANCED_SCHEMA.tables, ARTISTS_AND_TRACKS.tables[i].id)
  {
    var tables := ADVANCED_SCHEMA.tables;
    var c := ARTISTS_AND_TRACKS;
    assert HasTable(tables, c.tables[0].id) by { assert tables[3].id == c.tables[0].id; }
    assert HasTable(tables, c.tables[1].id) by { assert tables[4].id == c.tables[1].id; }
    assert HasTable(tables, c.tables[2].id) by { assert tables[5].id == c.tables[2].id; }
  }

  lemma ArtistsAndTracksJoinsResolve()
    ensures var c := ARTISTS_AND_TRACKS;
      forall i :: 0 <= i < |c.joins| ==>
        SideResolves(ADVANCED_SCHEMA.tables, c, c.joins[i].left) && SideResolves(ADVANCED_SCHEMA.tables, c, c.joins[i].right)
  {
    TracksToArtistsResolves();
    TracksToFeaturesResolves();
  }

  /** Tracks.artist_id = Artists.id */
  lemma TracksToArtistsResolves()
    ensures var c := ARTISTS_AND_TRACKS;
      SideResolves(ADVANCED_SCHEMA.tables, c, c.joins[0].left) && SideResolves(ADVANCED_SCHEMA.tables, c, c.joins[0].right)
  {
    var tables := ADVANCED_SCHEMA.tables;
    var c := ARTISTS_AND_TRACKS;
    assert tables[3].columns[3].id == "artist_id";
    assert tables[5].columns[0].id == "id";
    SideResolvesAt(tables, c, c.joins[0].left, 0, 3, 3);
    SideResolvesAt(tables, c, c.joins[0].right, 2, 5, 0);
  }

  /** Tracks.id = Features.id */
  lemma TracksToFeaturesResolves()
    ensures var c := ARTISTS_AND_TRACKS;
      SideResolves(ADVANCED_SCHEMA.tables, c, c.joins[1].left) && SideResolves(ADVANCED_SCHEMA.tables, c, c.joins[1].right)
  {
    var tables := ADVANCED_SCHEMA.tables;
    var c := ARTISTS_AND_TRACKS;
    assert tables[3].columns[0].id == "id";
    assert tables[4].columns[0].id == "id";
    SideResolvesAt(tables, c, c.joins[1].left, 0, 3, 0);
    SideResolvesAt(tables, c, c.joins[1].right, 1, 4, 0);
  }

  lemma ArtistsAndAlbumsWellFormed()
    ensures WellFormedConnection(ADVANCED_SCHEMA.tables, ARTISTS_AND_ALBUMS)
  {
    var tables := ADVANCED_SCHEMA.tables;
    var c := ARTISTS_AND_ALBUMS;
    assert HasTable(tables, c.tables[0].id) by { assert tables[2].id == c.tables[0].id; }
    assert HasTable(tables, c.tables[1].id) by { assert tables[6].id == c.tables[1].id; }
    AlbumsToArtistsResolves();
  }

  /** Albums.artist_id = Artists.id */
  lemma AlbumsToArtistsResolves()
    ensures var c := ARTISTS_AND_ALBUMS;
      SideResolves(ADVANCED_SCHEMA.tables, c, c.joins[0].left) && SideResolves(ADVANCED_SCHEMA.tables, c, c.joins[0].right)
  {
    var tables := ADVANCED_SCHEMA.tables;
    var c := ARTISTS_AND_ALBUMS;
    assert tables[2].columns[2].id == "artist_id";
    assert tables[6].columns[0].id == "id";
    SideResolvesAt(tables, c, c.joins[0].left, 0, 2, 2);
    SideResolvesAt(tables, c, c.joins[0].right, 1, 6, 0);
  }

  lemma ConnectionsWellFormed()
    ensures forall i :: 0 <= i < |ADVANCED_SCHEMA.standardConnections| ==>
      WellFormedConnection(ADVANCED_SCHEMA.tables, ADVANCED_SCHEMA.standardConnections[i])
  {
    ArtistsAndTracksWellFormed();
    ArtistsAndAlbumsWellFormed();
  }

  lemma AdvancedSchemaWellFormed()
    ensures WellFormedSchema(ADVANCED_SCHEMA)
  {
    EveryTableWellFormed();
    TableIdsDistinct();
    ForeignKeysResolve();
    ConnectionsWellFormed();
  }
}
