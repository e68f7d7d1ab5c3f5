/** The column switch of the top-artists view: each record is an artist. */
module TopArtists {
  import opened Wrappers
  import opened Json
  import Mapping
  import opened ColumnRules
  import Schema

  /** The column ids the switch lists. */
  const LISTED: seq<string> := ["followers", "genre1", "genre2", "href", "id", "image_link", "name", "popularity", "uri"]

  /** What the switch sets on the column with this id. The follower count
      is read from `followers.total` and defaults to 0; the genres come from
      the first two entries of the genre list and the image link from the
      first image; every other listed column reads the key of the same name. */
  function Assign(id: string): (a: Assignment)
    ensures a.transform == Mapping.Value(None)
    ensures a.lookup.Some? <==> id in LISTED
    ensures a.lookup.Some? ==> a.lookup.value.JStr? && a.lookup.value.s != ""
    ensures a.defaultValue.Some? <==> id == "followers"
    ensures id == "followers" ==> a.lookup == Some(JStr("followers.total")) && a.defaultValue == Some(JNum(0.0))
    ensures id == "genre1" ==> a.lookup == Some(JStr("genres[0]"))
    ensures id == "genre2" ==> a.lookup == Some(JStr("genres[1]"))
    ensures id == "image_link" ==> a.lookup == Some(JStr("images[0].url"))
    ensures id in ["href", "id", "name", "popularity", "uri"] ==> a.lookup == Some(JStr(id))
  {
    match id
    case "followers" => Assignment(Some(JStr("followers.total")), Some(JNum(0.0)), Mapping.Value(None))
    case "genre1" => LookupOnly("genres[0]")
    case "genre2" => LookupOnly("genres[1]")
    case "href" => LookupOnly("href")
    case "id" => LookupOnly("id")
    case "image_link" => LookupOnly("images[0].url")
    case "name" => LookupOnly("name")
    case "popularity" => LookupOnly("popularity")
    case "uri" => LookupOnly("uri")
    case _ => UNASSIGNED
  }

  /** An artist record without a follower count gets 0 in the followers
      column, not null. */
  lemma MissingFollowersReadAsZero(handlers: map<string, Mapping.HandlerFn>, col: Schema.Column, record: Json)
    requires col.id == "followers"
    requires Resolve(record, JStr("followers.total")).None?
    ensures Mapping.Cell(handlers, RuleFor(col, Assign(col.id)).rule, record) == Success(Some(JNum(0.0)))
  {
  }

  /** The followers column is the `total` of the record's `followers`,
      unless the record has a key spelled like the whole path. A null
      total is kept as null: the default 0 is only for a missing one. */
  lemma FollowersReadThroughPath(handlers: map<string, Mapping.HandlerFn>, col: Schema.Column, record: Json,
                                 followers: Json, total: Json)
    requires col.id == "followers"
    requires Prop(record, "followers.total").None?
    requires Prop(record, "followers") == Some(followers) && Prop(followers, "total") == Some(total)
    ensures Mapping.Cell(handlers, RuleFor(col, Assign(col.id)).rule, record) == Success(Some(total))
  {
    assert "followers" + ("." + "total") == "followers.total";
    FieldOfFieldRead(record, "followers", "total", followers, total);
  }

  /** Every column of the shipped top-artists table gets a lookup, so its
      rules are all accepted. */
  lemma ShippedColumnsAssigned()
    ensures AllAssigned(Schema.TOP_ARTISTS.columns, Assign)
  {
    Schema.TopArtistsColumnsDistinct();
    ShippedColumnsAcceptable();
    ShippedColumnsListed();
  }

  /** Every column id of the shipped table is one the switch lists. */
  lemma ShippedColumnsListed()
    ensures forall i :: 0 <= i < |Schema.TOP_ARTISTS.columns| ==> Schema.TOP_ARTISTS.columns[i].id in LISTED
  {
    var columns := Schema.TOP_ARTISTS.columns;
    Schema.TopArtistsIdsSpelled();
    assert columns[0].id == LISTED[0] && columns[1].id == LISTED[1] && columns[2].id == LISTED[2] && columns[3].id == LISTED[3];
    assert columns[4].id == LISTED[4] && columns[5].id == LISTED[5] && columns[6].id == LISTED[6] && columns[7].id == LISTED[7];
    assert columns[8].id == LISTED[8];
  }

  lemma ShippedColumnsAcceptable()
    ensures forall i :: 0 <= i < |Schema.TOP_ARTISTS.columns| ==> AcceptableColumn(Schema.TOP_ARTISTS.columns[i])
  {
    Schema.TopArtistsColumnIdsValid();
    Schema.TopArtistsColumnTypes();
  }

  /** A column the switch does not list gets no lookup, and the mapping
      engine rejects it with the missing-lookup error. */
  lemma UnlistedColumnRejected(rules: seq<Mapping.Rule>, col: Schema.Column)
    requires col.id !in LISTED
    requires AcceptableColumn(col) && !Mapping.HasId(rules, Some(JStr(col.id)))
    ensures Mapping.Prevalidate(rules, RuleFor(col, Assign(col.id))) == Mapping.Fails(Mapping.MappingError(Mapping.MISSING_LOOKUP))
  {
    UnassignedRejected(rules, col, Assign(col.id));
  }
}
