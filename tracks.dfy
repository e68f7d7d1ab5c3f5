/** The column switch of the tracks view, which reads the user's saved
    tracks: each record is a saved-track object whose `track` holds the
    track itself. */
module Tracks {
  import opened Wrappers
  import opened Json
  import Mapping
  import opened ColumnRules
  import Schema

  /** The column ids the switch lists. */
  const LISTED: seq<string> := ["added_at", "album_id", "artist_id", "artist_name", "duration_ms", "explicit",
                                "href", "id", "name", "preview_url", "track_number", "uri"]

  /** What the switch sets on the column with this id: only a lookup. The
      save time is read from the record's top level, every other listed
      column from its `track`, the album and artist columns from the
      track's album and first artist. */
  function Assign(id: string): (a: Assignment)
    ensures a.defaultValue.None? && a.transform == Mapping.Value(None)
    ensures a.lookup.Some? <==> id in LISTED
    ensures id == "added_at" ==> a.lookup == Some(JStr("added_at"))
    ensures a.lookup.Some? ==> a.lookup.value.JStr? && a.lookup.value.s != ""
    ensures id in LISTED && id != "added_at" ==> a.lookup.Some? && "track." <= a.lookup.value.s
    ensures id == "artist_id" || id == "artist_name" ==> a.lookup.Some? && "track.artists[0]." <= a.lookup.value.s
  {
    match id
    case "added_at" => LookupOnly("added_at")
    case "album_id" => LookupOnly("track.album.id")
    case "artist_id" => LookupOnly("track.artists[0].id")
    case "artist_name" => LookupOnly("track.artists[0].name")
    case "duration_ms" => LookupOnly("track.duration_ms")
    case "explicit" => LookupOnly("track.explicit")
    case "href" => LookupOnly("track.href")
    case "id" => LookupOnly("track.id")
    case "name" => LookupOnly("track.name")
    case "preview_url" => LookupOnly("track.preview_url")
    case "track_number" => LookupOnly("track.track_number")
    case "uri" => LookupOnly("track.uri")
    case _ => UNASSIGNED
  }

  /** Every column of the shipped tracks table gets a lookup, so its rules
      are all accepted. */
  lemma ShippedColumnsAssigned()
    ensures AllAssigned(Schema.TRACKS.columns, Assign)
  {
    Schema.TracksColumnsDistinct();
    ShippedColumnsAcceptable();
    ShippedColumnsListed();
  }

  /** Every column id of the shipped table is one the switch lists. */
  lemma ShippedColumnsListed()
    ensures forall i :: 0 <= i < |Schema.TRACKS.columns| ==> Schema.TRACKS.columns[i].id in LISTED
  {
    var columns := Schema.TRACKS.columns;
    Schema.TracksIdsSpelled();
    assert columns[0].id == LISTED[7] && columns[1].id == LISTED[0] && columns[2].id == LISTED[1] && columns[3].id == LISTED[2];
    assert columns[4].id == LISTED[3] && columns[5].id == LISTED[4] && columns[6].id == LISTED[5] && columns[7].id == LISTED[6];
    assert columns[8].id == LISTED[8] && columns[9].id == LISTED[9] && columns[10].id == LISTED[10] && columns[11].id == LISTED[11];
  }

  lemma ShippedColumnsAcceptable()
    ensures forall i :: 0 <= i < |Schema.TRACKS.columns| ==> AcceptableColumn(Schema.TRACKS.columns[i])
  {
    Schema.TracksColumnIdsValid();
    Schema.TracksColumnTypes();
  }

  /** A column the switch does not list gets no lookup, and the mapping
      engine rejects it with the missing-lookup error. */
  lemma UnlistedColumnRejected(rules: seq<Mapping.Rule>, col: Schema.Column)
    requires col.id !in LISTED
    requires AcceptableColumn(col) && !Mapping.HasId(rules, Some(JStr(col.id)))
    ensures Mapping.Prevalidate(rules, RuleFor(col, Assign(col.id))) == Mapping.Fails(Mapping.MappingError(Mapping.MISSING_LOOKUP))
  {
    UnassignedRejected(rules, col, Assign(col.id));
  }
}
