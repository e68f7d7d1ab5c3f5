/** The column switch of the tracks-features view: each record is the
    audio-features object of one track. Two columns carry a transform: the
    pitch class of the key is turned into its name, and the modality into
    "Minor" or "Major". */
module TracksFeatures {
  import opened Wrappers
  import opened Json
  import Mapping
  import opened ColumnRules
  import Schema

  /** The column ids the switch lists. */
  const LISTED: seq<string> := ["id", "danceability", "energy", "key", "loudness", "mode", "speechiness",
                                "acousticness", "instrumentalness", "liveness", "valence", "tempo", "time_signature"]

  /** The names of the twelve pitch classes, in pitch-class order. */
  const KEY_NAMES: seq<string> := ["C", "C♯", "D", "E♭", "E", "F", "F♯", "G", "A♭", "A", "A♯", "B"]

  /** The value contains no number with a fractional part, so `Text`
      renders it exactly as JavaScript's `String` does, as far as an array
      key is concerned. A number with a fraction always renders with a `.`
      or an exponent, which is never an array index. */
  predicate Integral(v: Json)
    decreases v
  {
    match v
    case JNum(n) => n == n.Floor as real
    case JArr(items) => forall i :: 0 <= i < |items| ==> Integral(items[i])
    case _ => true
  }

  /** The `key` transform: `keyLookup[key]` on the array of names, with the
      value converted to a property key. */
  function PitchClass(key: Json): (r: Option<Json>)
    ensures r.Some? ==> (exists k :: 0 <= k < |KEY_NAMES| && r.value == JStr(KEY_NAMES[k])) || r.value == JNum(12.0)
  {
    var names := JArr(seq(|KEY_NAMES|, i requires 0 <= i < |KEY_NAMES| => JStr(KEY_NAMES[i])));
    if Integral(key) then Prop(names, Text(key)) else None
  }

  /** The name of a pitch class, back to its number. */
  function PitchIndex(name: string): (r: Option<nat>)
    ensures r.Some? ==> r.value < |KEY_NAMES| && KEY_NAMES[r.value] == name
    ensures r.None? ==> name !in KEY_NAMES
  {
    if name == KEY_NAMES[0] then Some(0) else if name == KEY_NAMES[1] then Some(1)
    else if name == KEY_NAMES[2] then Some(2) else if name == KEY_NAMES[3] then Some(3)
    else if name == KEY_NAMES[4] then Some(4) else if name == KEY_NAMES[5] then Some(5)
    else if name == KEY_NAMES[6] then Some(6) else if name == KEY_NAMES[7] then Some(7)
    else if name == KEY_NAMES[8] then Some(8) else if name == KEY_NAMES[9] then Some(9)
    else if name == KEY_NAMES[10] then Some(10) else if name == KEY_NAMES[11] then Some(11)
    else None
  }

  /** Each pitch class 0 to 11 gets its own name, and the name leads back
      to the number. */
  lemma PitchClassNames(k: nat)
    requires k < 12
    ensures PitchClass(JNum(k as real)) == Some(JStr(KEY_NAMES[k]))
    ensures PitchIndex(KEY_NAMES[k]) == Some(k)
  {
    var s := NatToString(k);
    assert Text(JNum(k as real)) == s by {
      assert (k as real).Floor == k;
    }
    assert Integral(JNum(k as real));
    assert s != "length";
  }

  /** Numbers outside 0 to 11, and numbers with a fraction, have no name. */
  lemma PitchClassOutOfRange(n: real)
    requires n != n.Floor as real || n < 0.0 || n >= 12.0
    ensures PitchClass(JNum(n)) == None
  {
    if n == n.Floor as real {
      var s := Text(JNum(n));
      if n < 0.0 {
        assert s == "-" + NatToString(-n.Floor);
        assert !IsCanonicalIndex(s) by { assert !IsDigit(s[0]); }
        assert s != "length" by { assert s[0] != 'l'; }
      } else {
        assert s == NatToString(n.Floor);
        assert DigitsValue(s) >= 12;
        assert s != "length" by { assert IsDigit(s[0]); }
      }
    }
  }

  /** The `mode` transform: an input that parses as 0 is "Minor", one that
      parses as 1 is "Major", anything else is returned unchanged. */
  function ModeName(mode: Json): (r: Option<Json>)
    ensures r == Some(JStr("Minor")) || r == Some(JStr("Major")) || r == Some(mode)
  {
    match ParseInt(Text(mode))
    case Some(0) => Some(JStr("Minor"))
    case Some(1) => Some(JStr("Major"))
    case _ => Some(mode)
  }

  lemma ParsesDigit(s: string)
    requires |s| == 1 && IsDigit(s[0])
    ensures ParseInt(s) == Some(s[0] as int - '0' as int)
  {
    SignOrDigitNotSpace(s[0]);
    assert TrimStart(s) == s;
    assert SignedBody(s) == s;
    DigitsOnlyPrefix(s);
    assert s[..0] == [];
    assert DigitsValue(s) == s[0] as int - '0' as int;
    assert DigitPrefix(SignedBody(TrimStart(s))) == s;
    assert !(s[0] == '-');
  }

  lemma ParsesPlusDigit(s: string)
    requires |s| == 2 && s[0] == '+' && IsDigit(s[1])
    ensures ParseInt(s) == Some(s[1] as int - '0' as int)
  {
    SignOrDigitNotSpace(s[0]);
    assert TrimStart(s) == s;
    var d := s[1..];
    assert SignedBody(s) == d;
    DigitsOnlyPrefix(d);
    assert d[..0] == [];
    assert DigitsValue(d) == s[1] as int - '0' as int;
    assert DigitPrefix(SignedBody(TrimStart(s))) == d;
    assert !(s[0] == '-');
  }

  lemma SmallTexts()
    ensures Text(JNum(0.0)) == "0" && Text(JNum(1.0)) == "1"
  {
    assert (0.0).Floor == 0;
    assert (1.0).Floor == 1;
  }

  /** The modality numbers the Web API sends: 0 is minor, 1 is major. */
  lemma ModeNumbers()
    ensures ModeName(JNum(0.0)) == Some(JStr("Minor"))
    ensures ModeName(JNum(1.0)) == Some(JStr("Major"))
  {
    ModeZeroNumber();
    ModeOneNumber();
  }

  lemma ModeZeroNumber()
    ensures ModeName(JNum(0.0)) == Some(JStr("Minor"))
  {
    SmallTexts();
    ParsesDigit("0");
    ModeOf(JNum(0.0));
  }

  lemma ModeOneNumber()
    ensures ModeName(JNum(1.0)) == Some(JStr("Major"))
  {
    SmallTexts();
    ParsesDigit("1");
    ModeOf(JNum(1.0));
  }

  /** Text forms are parsed the way `parseInt` does, and null is kept. */
  lemma ModeTexts()
    ensures ModeName(JStr("0")) == Some(JStr("Minor"))
    ensures ModeName(JStr("+1")) == Some(JStr("Major"))
    ensures ModeName(JNull) == Some(JNull)
  {
    ModeZeroText();
    ModePlusOneText();
    ModeNullKept();
  }

  lemma ModeNullKept()
    ensures ModeName(JNull) == Some(JNull)
  {
    NoNumeral("null");
  }

  lemma ModeZeroText()
    ensures ModeName(JStr("0")) == Some(JStr("Minor"))
  {
    ParsesDigit("0");
    assert Text(JStr("0")) == "0";
    ModeOf(JStr("0"));
  }

  lemma ModePlusOneText()
    ensures ModeName(JStr("+1")) == Some(JStr("Major"))
  {
    ParsesPlusDigit("+1");
    assert Text(JStr("+1")) == "+1";
    ModeOf(JStr("+1"));
  }

  /** The mode transform reads a value through its text and `parseInt`. */
  lemma ModeOf(v: Json)
    ensures ParseInt(Text(v)) == Some(0) ==> ModeName(v) == Some(JStr("Minor"))
    ensures ParseInt(Text(v)) == Some(1) ==> ModeName(v) == Some(JStr("Major"))
    ensures ParseInt(Text(v)) != Some(0) && ParseInt(Text(v)) != Some(1) ==> ModeName(v) == Some(v)
  {
    var parsed := ParseInt(Text(v));
    if parsed.Some? && parsed.value != 0 && parsed.value != 1 {
      assert ModeName(v) == Some(v);
    }
  }

  /** Applying the mode transform to its own output changes nothing more:
      the names themselves do not parse as numbers. */
  lemma ModeNameIdempotent(mode: Json)
    ensures ModeName(ModeName(mode).value) == ModeName(mode)
  {
    var r := ModeName(mode);
    if r != Some(mode) {
      ModeNameOfName(r.value.s);
    }
  }

  /** The names are kept as they are. */
  lemma ModeNameOfName(name: string)
    requires name == "Minor" || name == "Major"
    ensures ModeName(JStr(name)) == Some(JStr(name))
  {
    NoNumeral(name);
  }

  /** A text that starts with something other than white space, a sign or a
      digit parses as NaN. */
  lemma NoNumeral(s: string)
    requires |s| > 0 && !IsJsSpace(s[0]) && !IsDigit(s[0]) && s[0] != '-' && s[0] != '+'
    ensures ParseInt(s) == None
  {
    assert TrimStart(s) == s;
    assert SignedBody(s) == s;
  }

  /** The inline transform functions the switch installs. */
  const KEY_TRANSFORM: Mapping.HandlerFn := key => PitchClass(key)
  const MODE_TRANSFORM: Mapping.HandlerFn := mode => ModeName(mode)

  /** What the switch sets on the column with this id: a lookup of the key
      of the same name; the key and mode columns also get their transform
      and a null default. */
  function Assign(id: string): (a: Assignment)
    ensures a.lookup.Some? <==> id in LISTED
    ensures id in LISTED ==> a.lookup == Some(JStr(id))
    ensures a.lookup.Some? ==> a.lookup.value.JStr? && a.lookup.value.s != ""
    ensures id == "key" ==> a.defaultValue == Some(JNull) && a.transform == Mapping.Inline(KEY_TRANSFORM)
    ensures id == "mode" ==> a.defaultValue == Some(JNull) && a.transform == Mapping.Inline(MODE_TRANSFORM)
    ensures id != "key" && id != "mode" ==> a.defaultValue.None? && a.transform == Mapping.Value(None)
  {
    match id
    case "id" => LookupOnly("id")
    case "danceability" => LookupOnly("danceability")
    case "energy" => LookupOnly("energy")
    case "key" => Assignment(Some(JStr("key")), Some(JNull), Mapping.Inline(KEY_TRANSFORM))
    case "loudness" => LookupOnly("loudness")
    case "mode" => Assignment(Some(JStr("mode")), Some(JNull), Mapping.Inline(MODE_TRANSFORM))
    case "speechiness" => LookupOnly("speechiness")
    case "acousticness" => LookupOnly("acousticness")
    case "instrumentalness" => LookupOnly("instrumentalness")
    case "liveness" => LookupOnly("liveness")
    case "valence" => LookupOnly("valence")
    case "tempo" => LookupOnly("tempo")
    case "time_signature" => LookupOnly("time_signature")
    case _ => UNASSIGNED
  }

  /** A features record without a key gets no name but null: the default
      passes through the key transform, where `keyLookup[null]` is
      undefined. */
  lemma MissingKeyCell(handlers: map<string, Mapping.HandlerFn>, col: Schema.Column, record: Json)
    requires col.id == "key"
    requires Resolve(record, JStr("key")).None?
    ensures Mapping.Cell(handlers, RuleFor(col, Assign(col.id)).rule, record) == Success(None)
  {
    assert !Integral(JNull) || Text(JNull) == "null";
  }

  /** Every column of the shipped tracks-features table gets a lookup, so
      its rules are all accepted. */
  lemma ShippedColumnsAssigned()
    ensures AllAssigned(Schema.TRACKS_FEATURES.columns, Assign)
  {
    Schema.TracksFeaturesColumnsDistinct();
    ShippedColumnsAcceptable();
    ShippedColumnsListed();
  }

  /** Every column id of the shipped table is one the switch lists. */
  lemma ShippedColumnsListed()
    ensures forall i :: 0 <= i < |Schema.TRACKS_FEATURES.columns| ==> Schema.TRACKS_FEATURES.columns[i].id in LISTED
  {
    var columns := Schema.TRACKS_FEATURES.columns;
    Schema.TracksFeaturesIdsSpelled();
    assert columns[0].id == LISTED[0] && columns[1].id == LISTED[1] && columns[2].id == LISTED[2] && columns[3].id == LISTED[3];
    assert columns[4].id == LISTED[4] && columns[5].id == LISTED[5] && columns[6].id == LISTED[6] && columns[7].id == LISTED[7];
    assert columns[8].id == LISTED[8] && columns[9].id == LISTED[9] && columns[10].id == LISTED[10] && columns[11].id == LISTED[11];
    assert columns[12].id == LISTED[12];
  }

  lemma ShippedColumnsAcceptable()
    ensures forall i :: 0 <= i < |Schema.TRACKS_FEATURES.columns| ==> AcceptableColumn(Schema.TRACKS_FEATURES.columns[i])
  {
    Schema.TracksFeaturesColumnIdsValid();
    Schema.TracksFeaturesColumnTypes();
  }

  /** A column the switch does not list gets no lookup, and the mapping
      engine rejects it with the missing-lookup error. */
  lemma UnlistedColumnRejected(rules: seq<Mapping.Rule>, col: Schema.Column)
    requires col.id !in LISTED
    requires AcceptableColumn(col) && !Mapping.HasId(rules, Some(JStr(col.id)))
    ensures Mapping.Prevalidate(rules, RuleFor(col, Assign(col.id))) == Mapping.Fails(Mapping.MappingError(Mapping.MISSING_LOOKUP))
  {
    UnassignedRejected(rules, col, Assign(col.id));
  }
}
