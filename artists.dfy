/** The column switch of the artists view, used for both artist tables:
    each record is an artist. */
module Artists {
  import opened Wrappers
  import opened Json
  import Mapping
  import opened ColumnRules
  import Schema

  /** The column ids the switch lists. */
  const LISTED: seq<string> := ["id", "followers", "genre1", "genre2", "href", "image_link", "name", "popularity", "uri"]

  /** What the switch sets on the column with this id: only a lookup. The
      follower count is read from `followers.total` with no default; the
      genres come from the first two entries of the genre list and the
      image link from the first image; every other listed column reads the
      key of the same name. */
  function Assign(id: string): (a: Assignment)
    ensures a.defaultValue.None? && a.transform == Mapping.Value(None)
    ensures a.lookup.Some? <==> id in LISTED
    ensures a.lookup.Some? ==> a.lookup.value.JStr? && a.lookup.value.s != ""
    ensures id == "followers" ==> a.lookup == Some(JStr("followers.total"))
    ensures id == "genre1" ==> a.lookup == Some(JStr("genres[0]"))
    ensures id == "genre2" ==> a.lookup == Some(JStr("genres[1]"))
    ensures id == "image_link" ==> a.lookup == Some(JStr("images[0].url"))
    ensures id in ["href", "id", "name", "popularity", "uri"] ==> a.lookup == Some(JStr(id))
  {
    match id
    case "id" => LookupOnly("id")
    case "followers" => LookupOnly("followers.total")
    case "genre1" => LookupOnly("genres[0]")
    case "genre2" => LookupOnly("genres[1]")
    case "href" => LookupOnly("href")
    case "image_link" => LookupOnly("images[0].url")
    case "name" => LookupOnly("name")
    case "popularity" => LookupOnly("popularity")
    case "uri" => LookupOnly("uri")
    case _ => UNASSIGNED
  }

  /** Unlike the top-artists view, an artist record without a follower
      count gets null in the followers column. */
  lemma MissingFollowersReadAsNull(handlers: map<string, Mapping.HandlerFn>, col: Schema.Column, record: Json)
    requires col.id == "followers"
    requires Resolve(record, JStr("followers.total")).None?
    ensures Mapping.Cell(handlers, RuleFor(col, Assign(col.id)).rule, record) == Success(Some(JNull))
  {
  }

  /** The first genre column is the first entry of the record's genre
      list, unless the record has a key spelled like the whole path. */
  lemma FirstGenreReadThroughPath(handlers: map<string, Mapping.HandlerFn>, col: Schema.Column, record: Json,
                                  genres: seq<Json>)
    requires col.id == "genre1"
    requires Prop(record, "genres[0]").None?
    requires Prop(record, "genres") == Some(JArr(genres)) && |genres| > 0
    ensures Mapping.Cell(handlers, RuleFor(col, Assign(col.id)).rule, record) == Success(Some(genres[0]))
  {
    assert "genres" + ("[" + "0" + "]") == "genres[0]";
    assert DigitsValue("0") == 0;
    IndexOfFieldRead(record, "genres", "0", genres);
  }

  /** Every column of the shipped artist tables gets a lookup, so their
      rules are all accepted. */
  lemma ShippedColumnsAssigned()
    ensures AllAssigned(Schema.TRACKS_ARTISTS.columns, Assign)
    ensures AllAssigned(Schema.ALBUMS_ARTISTS.columns, Assign)
  {
    Schema.TracksArtistsColumnsDistinct();
    ShippedColumnsAcceptable();
    ShippedColumnsListed();
  }

  /** Every column id of the shipped table is one the switch lists. */
  lemma ShippedColumnsListed()
    ensures forall i :: 0 <= i < |Schema.ARTIST_COLUMNS| ==> Schema.ARTIST_COLUMNS[i].id in LISTED
  {
    var columns := Schema.ARTIST_COLUMNS;
    Schema.ArtistIdsSpelled();
    assert columns[0].id == LISTED[0] && columns[1].id == LISTED[1] && columns[2].id == LISTED[2] && columns[3].id == LISTED[3];
    assert columns[4].id == LISTED[4] && columns[5].id == LISTED[5] && columns[6].id == LISTED[6] && columns[7].id == LISTED[7];
    assert columns[8].id == LISTED[8];
  }

  lemma ShippedColumnsAcceptable()
    ensures forall i :: 0 <= i < |Schema.ARTIST_COLUMNS| ==> AcceptableColumn(Schema.ARTIST_COLUMNS[i])
  {
    Schema.ArtistColumnIds();
    Schema.TracksArtistsColumnTypes();
  }

  /** A column the switch does not list gets no lookup, and the mapping
      engine rejects it with the missing-lookup error. */
  lemma UnlistedColumnRejected(rules: seq<Mapping.Rule>, col: Schema.Column)
    requires col.id !in LISTED
    requires AcceptableColumn(col) && !Mapping.HasId(rules, Some(JStr(col.id)))
    ensures Mapping.Prevalidate(rules, RuleFor(col, Assign(col.id))) == Mapping.Fails(Mapping.MappingError(Mapping.MISSING_LOOKUP))
  {
    UnassignedRejected(rules, col, Assign(col.id));
  }
}
