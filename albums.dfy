/** The column switch of the albums view, which reads the user's saved
    albums: each record is a saved-album object whose `album` holds the
    album itself. */
module Albums {
  import opened Wrappers
  import opened Json
  import Mapping
  import opened ColumnRules
  import Schema

  /** The column ids the switch lists. */
  const LISTED: seq<string> := ["added_at", "artist_id", "genre1", "genre2", "href", "id", "image_link", "name",
                                "popularity", "uri", "release_date", "type"]

  /** What the switch sets on the column with this id: only a lookup. The
      save time is read from the record's top level and every other listed
      column from its `album`: the two genres from the first two entries of
      its genre list, the image link from its first image, the artist from
      its first artist. */
  function Assign(id: string): (a: Assignment)
    ensures a.defaultValue.None? && a.transform == Mapping.Value(None)
    ensures a.lookup.Some? <==> id in LISTED
    ensures a.lookup.Some? ==> a.lookup.value.JStr? && a.lookup.value.s != ""
    ensures id == "added_at" ==> a.lookup == Some(JStr("added_at"))
    ensures id in LISTED && id != "added_at" ==> a.lookup.Some? && "album." <= a.lookup.value.s
    ensures id == "genre1" ==> a.lookup == Some(JStr("album.genres[0]"))
    ensures id == "genre2" ==> a.lookup == Some(JStr("album.genres[1]"))
    ensures id == "image_link" ==> a.lookup == Some(JStr("album.images[0].url"))
    ensures id == "artist_id" ==> a.lookup == Some(JStr("album.artists[0].id"))
  {
    match id
    case "added_at" => LookupOnly("added_at")
    case "artist_id" => LookupOnly("album.artists[0].id")
    case "genre1" => LookupOnly("album.genres[0]")
    case "genre2" => LookupOnly("album.genres[1]")
    case "href" => LookupOnly("album.href")
    case "id" => LookupOnly("album.id")
    case "image_link" => LookupOnly("album.images[0].url")
    case "name" => LookupOnly("album.name")
    case "popularity" => LookupOnly("album.popularity")
    case "uri" => LookupOnly("album.uri")
    case "release_date" => LookupOnly("album.release_date")
    case "type" => LookupOnly("album.type")
    case _ => UNASSIGNED
  }

  /** The image link is the `url` of the first image of the record's
      album, unless the record has a key spelled like the whole path. */
  lemma ImageLinkReadThroughPath(record: Json, album: Json, images: seq<Json>, url: Json)
    requires Prop(record, "album.images[0].url").None?
    requires Prop(record, "album") == Some(album) && Prop(album, "images") == Some(JArr(images))
    requires |images| > 0 && Prop(images[0], "url") == Some(url)
    ensures Resolve(record, JStr("album.images[0].url")) == Some(url)
  {
    ImageLinkPathSpelled();
    FieldOfIndexOfFieldRead(record, "album", "images", "0", "url", album, images, url);
  }

  /** The artist column is the `id` of the first artist of the record's
      album, unless the record has a key spelled like the whole path. */
  lemma ArtistIdReadThroughPath(record: Json, album: Json, artists: seq<Json>, id: Json)
    requires Prop(record, "album.artists[0].id").None?
    requires Prop(record, "album") == Some(album) && Prop(album, "artists") == Some(JArr(artists))
    requires |artists| > 0 && Prop(artists[0], "id") == Some(id)
    ensures Resolve(record, JStr("album.artists[0].id")) == Some(id)
  {
    ArtistIdPathSpelled();
    FieldOfIndexOfFieldRead(record, "album", "artists", "0", "id", album, artists, id);
  }

  /** The parts of the lookup `album.images[0].url`. */
  lemma ImageLinkPathSpelled()
    ensures PlainKey("album") && PlainKey("images") && PlainKey("url")
    ensures IsCanonicalIndex("0") && DigitsValue("0") == 0
    ensures "album" + ("." + "images" + ("[" + "0" + "]" + ("." + "url"))) == "album.images[0].url"
  {
  }

  /** The parts of the lookup `album.artists[0].id`. */
  lemma ArtistIdPathSpelled()
    ensures PlainKey("album") && PlainKey("artists") && PlainKey("id")
    ensures IsCanonicalIndex("0") && DigitsValue("0") == 0
    ensures "album" + ("." + "artists" + ("[" + "0" + "]" + ("." + "id"))) == "album.artists[0].id"
  {
  }

  /** Every column of the shipped albums table gets a lookup, so its rules
      are all accepted. */
  lemma ShippedColumnsAssigned()
    ensures AllAssigned(Schema.ALBUMS.columns, Assign)
  {
    Schema.AlbumsColumnsDistinct();
    ShippedColumnsAcceptable();
    ShippedColumnsListed();
  }

  /** Every column id of the shipped table is one the switch lists. */
  lemma ShippedColumnsListed()
    ensures forall i :: 0 <= i < |Schema.ALBUMS.columns| ==> Schema.ALBUMS.columns[i].id in LISTED
  {
    var columns := Schema.ALBUMS.columns;
    Schema.AlbumsIdsSpelled();
    assert columns[0].id == LISTED[5] && columns[1].id == LISTED[0] && columns[2].id == LISTED[1] && columns[3].id == LISTED[2];
    assert columns[4].id == LISTED[3] && columns[5].id == LISTED[4] && columns[6].id == LISTED[6] && columns[7].id == LISTED[7];
    assert columns[8].id == LISTED[8] && columns[9].id == LISTED[10] && columns[10].id == LISTED[11] && columns[11].id == LISTED[9];
  }

  lemma ShippedColumnsAcceptable()
    ensures forall i :: 0 <= i < |Schema.ALBUMS.columns| ==> AcceptableColumn(Schema.ALBUMS.columns[i])
  {
    Schema.AlbumsColumnIdsValid();
    Schema.AlbumsColumnTypes();
  }

  /** A column the switch does not list gets no lookup, and the mapping
      engine rejects it with the missing-lookup error. */
  lemma UnlistedColumnRejected(rules: seq<Mapping.Rule>, col: Schema.Column)
    requires col.id !in LISTED
    requires AcceptableColumn(col) && !Mapping.HasId(rules, Some(JStr(col.id)))
    ensures Mapping.Prevalidate(rules, RuleFor(col, Assign(col.id))) == Mapping.Fails(Mapping.MappingError(Mapping.MISSING_LOOKUP))
  {
    UnassignedRejected(rules, col, Assign(col.id));
  }
}
