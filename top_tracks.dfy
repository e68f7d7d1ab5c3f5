/** The column switch of the top-tracks view: each record is a track. */
module TopTracks {
  import opened Wrappers
  import opened Json
  import Mapping
  import opened ColumnRules
  import Schema

  /** The column ids the switch lists. */
  const LISTED: seq<string> := ["album_id", "artist_id", "artist_name", "duration_ms", "explicit", "href", "id",
                                "name", "preview_url", "track_number", "uri"]

  /** What the switch sets on the column with this id: only a lookup. The
      album id is read from the track's album, the artist columns from
      its first artist, and every other listed column from the key of the
      same name at the record's top level. */
  function Assign(id: string): (a: Assignment)
    ensures a.defaultValue.None? && a.transform == Mapping.Value(None)
    ensures a.lookup.Some? <==> id in LISTED
    ensures a.lookup.Some? ==> a.lookup.value.JStr? && a.lookup.value.s != ""
    ensures id in LISTED && id !in ["album_id", "artist_id", "artist_name"] ==> a.lookup == Some(JStr(id))
    ensures id == "album_id" ==> a.lookup == Some(JStr("album.id"))
    ensures id == "artist_id" || id == "artist_name" ==> a.lookup.Some? && "artists[0]." <= a.lookup.value.s
  {
    match id
    case "album_id" => LookupOnly("album.id")
    case "artist_id" => LookupOnly("artists[0].id")
    case "artist_name" => LookupOnly("artists[0].name")
    case "duration_ms" => LookupOnly("duration_ms")
    case "explicit" => LookupOnly("explicit")
    case "href" => LookupOnly("href")
    case "id" => LookupOnly("id")
    case "name" => LookupOnly("name")
    case "preview_url" => LookupOnly("preview_url")
    case "track_number" => LookupOnly("track_number")
    case "uri" => LookupOnly("uri")
    case _ => UNASSIGNED
  }

  /** Every column of the shipped top-tracks table gets a lookup, so its
      rules are all accepted. */
  lemma ShippedColumnsAssigned()
    ensures AllAssigned(Schema.TOP_TRACKS.columns, Assign)
  {
    Schema.TopTracksColumnsDistinct();
    ShippedColumnsAcceptable();
    ShippedColumnsListed();
  }

  /** Every column id of the shipped table is one the switch lists. */
  lemma ShippedColumnsListed()
    ensures forall i :: 0 <= i < |Schema.TOP_TRACKS.columns| ==> Schema.TOP_TRACKS.columns[i].id in LISTED
  {
    var columns := Schema.TOP_TRACKS.columns;
    Schema.TopTracksIdsSpelled();
    assert columns[0].id == LISTED[6] && columns[1].id == LISTED[0] && columns[2].id == LISTED[1] && columns[3].id == LISTED[2];
    assert columns[4].id == LISTED[3] && columns[5].id == LISTED[4] && columns[6].id == LISTED[5] && columns[7].id == LISTED[7];
    assert columns[8].id == LISTED[8] && columns[9].id == LISTED[9] && columns[10].id == LISTED[10];
  }

  lemma ShippedColumnsAcceptable()
    ensures forall i :: 0 <= i < |Schema.TOP_TRACKS.columns| ==> AcceptableColumn(Schema.TOP_TRACKS.columns[i])
  {
    Schema.TopTracksColumnIdsValid();
    Schema.TopTracksColumnTypes();
  }

  /** A column the switch does not list gets no lookup, and the mapping
      engine rejects it with the missing-lookup error. */
  lemma UnlistedColumnRejected(rules: seq<Mapping.Rule>, col: Schema.Column)
    requires col.id !in LISTED
    requires AcceptableColumn(col) && !Mapping.HasId(rules, Some(JStr(col.id)))
    ensures Mapping.Prevalidate(rules, RuleFor(col, Assign(col.id))) == Mapping.Fails(Mapping.MappingError(Mapping.MISSING_LOOKUP))
  {
    UnassignedRejected(rules, col, Assign(col.id));
  }
}
