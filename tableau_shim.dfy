/** The connector's wrapper around the host's global `tableau` object:
    validating setters, read-only properties, and the JSON conversions of
    `connectionData`, `passwordData` and `userData`. */
module TableauShim {
  import opened Wrappers
  import opened Json
  import opened ErrorHelper

  /** `JSON.stringify` and `JSON.parse`, which the model does not define;
      `parse` gives `None` where `JSON.parse` throws. */
  datatype JsonCodec = JsonCodec(stringify: Json -> string, parse: string -> Option<Json>)

  /** What the model relies on of the codec: parsing a value's text gives
      the value back, that text is never empty, and the text "undefined"
      (what `JSON.parse(undefined)` reads) is not JSON. */
  ghost predicate Lawful(codec: JsonCodec) {
    && (forall v :: codec.parse(codec.stringify(v)) == Some(v))
    && (forall v :: codec.stringify(v) != "")
    && codec.parse("undefined") == None
  }

  /** The host object's own properties, by name. */
  type Props = map<string, Json>

  function Get(props: Props, name: string): Option<Json> {
    if name in props then Some(props[name]) else None
  }

  function ShimError(message: string): ErrorInfo {
    ErrorInfo("Error", "TableauShim: " + message, None)
  }

  /** The properties whose setter only throws. */
  const READ_ONLY: set<string> := {
    "aggTypeEnum", "authPurpose", "authPurposeEnum", "authTypeEnum", "columnRoleEnum", "columnTypeEnum",
    "dataTypeEnum", "geographicRoleEnum", "joinEnum", "language", "locale", "localeEnum",
    "numberFormatEnum", "phase", "phaseEnum", "platformBuildNumber", "platformEdition", "platformOs",
    "platformOS", "platformVersion", "unitsFormatEnum"
  }

  /** The properties whose setter accepts only strings. */
  const STRING_PROPS: set<string> := {
    "connectionName", "incrementalExtractColumn", "password", "username", "usernameAlias"
  }

  /** The enum objects the shim hands out copies of. */
  const ENUMS: set<string> := {
    "aggTypeEnum", "authPurposeEnum", "authTypeEnum", "columnRoleEnum", "columnTypeEnum", "dataTypeEnum",
    "geographicRoleEnum", "joinEnum", "localeEnum", "numberFormatEnum", "phaseEnum", "unitsFormatEnum"
  }

  /** The read-only error; the `platformOS` alias reports itself as `platformOs`. */
  function ReadOnlyError(name: string): ErrorInfo {
    ShimError((if name == "platformOS" then "platformOs" else name) + " prop is read-only")
  }

  /** A setter of the shim. */
  datatype Setter =
    | ReadOnly(name: string)
    | StringSetter(name: string)
    | AlwaysShowAuthUI
    | AuthType
    | ConnectionData
    | PasswordData
    | UserData

  /** The own enumerable values of an object, `_.values`. */
  function Values(v: Json): seq<Json> {
    if v.JObj? then seq(|v.fields|, i requires 0 <= i < |v.fields| => v.fields[i].1) else []
  }

  /** The own properties `Object.assign` copies from a list of indexed
      elements: "0", "1", … in order. */
  function IndexFields(items: seq<Json>): (fields: seq<(string, Json)>)
    ensures |fields| == |items|
    ensures forall i :: 0 <= i < |items| ==> fields[i] == (NatToString(i), items[i])
  {
    seq(|items|, i requires 0 <= i < |items| => (NatToString(i), items[i]))
  }

  /** A string's characters as one-character strings, the elements
      `Object.assign` finds under its indexes. */
  function Chars(s: string): (items: seq<Json>)
    ensures |items| == |s|
    ensures forall i :: 0 <= i < |s| ==> items[i] == JStr([s[i]])
  {
    seq(|s|, i requires 0 <= i < |s| => JStr([s[i]]))
  }

  /** `Object.assign({}, source)` for the enum getters: an object's own
      properties; the elements of an array, or the characters of a string,
      under their indexes; an empty object for anything else. */
  function EnumCopy(props: Props, name: string): (copy: Json)
    requires name in ENUMS
    ensures copy.JObj?
    ensures Get(props, name).Some? && Get(props, name).value.JObj? ==> copy == props[name]
    ensures Get(props, name).Some? && (Get(props, name).value.JArr? || Get(props, name).value.JStr?) ==>
      var source := Get(props, name).value;
      && |copy.fields| == Prop(source, "length").value.n.Floor
      && forall i :: 0 <= i < |copy.fields| ==>
           copy.fields[i].0 == NatToString(i) && Prop(source, copy.fields[i].0) == Some(copy.fields[i].1)
    ensures (Get(props, name).None? ||
             !(Get(props, name).value.JObj? || Get(props, name).value.JArr? || Get(props, name).value.JStr?))
            ==> copy == JObj([])
  {
    var source := Get(props, name);
    if source.None? then JObj([])
    else match source.value
      case JObj(fields) => JObj(fields)
      case JArr(items) => JObj(IndexFields(items))
      case JStr(s) => JObj(IndexFields(Chars(s)))
      case _ => JObj([])
  }

  /** `value` passes `_.values(this.authTypeEnum).indexOf(value) >= 0`:
      strict equality, which for objects and arrays is identity and so is
      never met by a value that is not the enum's own. */
  predicate IsAuthType(props: Props, value: Option<Json>) {
    && value.Some? && !value.value.JObj? && !value.value.JArr?
    && value.value in Values(EnumCopy(props, "authTypeEnum"))
  }

  /** The error text of the authType setter quotes the value as JSON. */
  function Quoted(codec: JsonCodec, value: Option<Json>): string {
    if value.None? then "undefined" else codec.stringify(value.value)
  }

  /** The host property a setter writes. */
  function Written(setter: Setter): string {
    match setter
    case ReadOnly(name) => name
    case StringSetter(name) => name
    case AlwaysShowAuthUI => "alwaysShowAuthUI"
    case AuthType => "authType"
    case ConnectionData => "connectionData"
    case PasswordData => "password"
    case UserData => "username"
  }

  /** What a setter call stores under the property it writes, or what it
      throws: a read-only setter always throws. */
  function Stored(props: Props, codec: JsonCodec, setter: Setter, value: Option<Json>): (r: Result<Json, ErrorInfo>)
    ensures setter.ReadOnly? ==> r.Failure?
  {
    match setter
    case ReadOnly(name) => Failure(ReadOnlyError(name))
    case StringSetter(name) =>
      if value.Some? && value.value.JStr? then Success(value.value)
      else Failure(ShimError(name + " must be a String"))
    case AlwaysShowAuthUI =>
      if value.Some? && value.value.JBool? then Success(value.value)
      else Failure(ShimError("alwaysShowAuthUI must be a Boolean"))
    case AuthType =>
      if IsAuthType(props, value) then Success(value.value)
      else Failure(ShimError("Invalid Value passed : " + Quoted(codec, value)))
    case ConnectionData =>
      if IsPlainObject(value) then Success(JStr(codec.stringify(value.value)))
      else if value.Some? && value.value.JStr? then Success(value.value)
      else Failure(ShimError("connectionData must be either a stringified object or a literal object"))
    case PasswordData =>
      if IsPlainObject(value) then Success(JStr(codec.stringify(value.value)))
      else Failure(ShimError("passwordData value must be a plain Object"))
    case UserData =>
      if !IsPlainObject(value) then Failure(ShimError("userData must be an Object when allowObject is true"))
      else if FieldValue(value.value.fields, "user").None? then
        Failure(ShimError("userData must have a property named \"user\" when defined as Object"))
      else Success(JStr(codec.stringify(value.value)))
  }

  /** The host properties after a setter call, or what it throws. A
      read-only setter always throws; any other writes its one property and
      leaves every other untouched. */
  function Assign(props: Props, codec: JsonCodec, setter: Setter, value: Option<Json>): (r: Result<Props, ErrorInfo>)
    ensures setter.ReadOnly? ==> r.Failure?
    ensures r.Success? ==> r.value.Keys == props.Keys + {Written(setter)}
    ensures r.Success? ==> forall k :: k in props && k != Written(setter) ==> r.value[k] == props[k]
  {
    match Stored(props, codec, setter, value)
    case Failure(e) => Failure(e)
    case Success(v) => Success(props[Written(setter) := v])
  }

  /** A setter call succeeds exactly when it has a value to store, and
      throws what the stored value's check throws. */
  lemma AssignFollowsStored(props: Props, codec: JsonCodec, setter: Setter, value: Option<Json>)
    ensures Assign(props, codec, setter, value).Success? <==> Stored(props, codec, setter, value).Success?
    ensures Assign(props, codec, setter, value).Failure? ==>
      Assign(props, codec, setter, value).error == Stored(props, codec, setter, value).error
  {
  }

  /** Every read-only property throws its read-only error on assignment. */
  lemma ReadOnlySetterThrows(props: Props, codec: JsonCodec, name: string, value: Option<Json>)
    requires name in READ_ONLY
    ensures Assign(props, codec, ReadOnly(name), value) == Failure(ReadOnlyError(name))
    ensures name == "platformOS" ==> ReadOnlyError(name) == ReadOnlyError("platformOs")
  {
  }

  /** The string properties take exactly the strings, which read back
      unchanged; anything else throws "must be a String". */
  lemma StringSetterRoundTrip(props: Props, codec: JsonCodec, name: string, value: Option<Json>)
    requires name in STRING_PROPS
    ensures Assign(props, codec, StringSetter(name), value).Success? <==> value.Some? && value.value.JStr?
    ensures Assign(props, codec, StringSetter(name), value).Success? ==>
      Read(Assign(props, codec, StringSetter(name), value).value, name) == value
    ensures Assign(props, codec, StringSetter(name), value).Failure? ==>
      Assign(props, codec, StringSetter(name), value).error == ShimError(name + " must be a String")
  {
  }

  /** `alwaysShowAuthUI` takes exactly the booleans, which read back. */
  lemma AlwaysShowAuthUIRoundTrip(props: Props, codec: JsonCodec, value: Option<Json>)
    ensures Assign(props, codec, AlwaysShowAuthUI, value).Success? <==> value.Some? && value.value.JBool?
    ensures Assign(props, codec, AlwaysShowAuthUI, value).Success? ==>
      Read(Assign(props, codec, AlwaysShowAuthUI, value).value, "alwaysShowAuthUI") == value
    ensures Assign(props, codec, AlwaysShowAuthUI, value).Failure? ==>
      Assign(props, codec, AlwaysShowAuthUI, value).error == ShimError("alwaysShowAuthUI must be a Boolean")
  {
  }

  /** `v` is stored in `source` under one of its own keys: a field of an
      object, an element of an array, a one-character string of a string. */
  predicate OwnValue(source: Json, v: Json) {
    match source
    case JObj(fields) => exists i :: 0 <= i < |fields| && fields[i].1 == v
    case JArr(items) => v in items
    case JStr(s) => v in Chars(s)
    case _ => false
  }

  /** Copying a list under its indexes keeps its values, in order. */
  lemma IndexFieldsValues(items: seq<Json>)
    ensures Values(JObj(IndexFields(items))) == items
  {
  }

  /** The values of the enum copy are exactly the own values of the enum. */
  lemma EnumCopyValues(props: Props, name: string, v: Json)
    requires name in ENUMS
    ensures v in Values(EnumCopy(props, name)) <==> name in props && OwnValue(props[name], v)
  {
    if name in props {
      match props[name]
      case JObj(fields) =>
        if v in Values(props[name]) {
          var i :| 0 <= i < |fields| && Values(props[name])[i] == v;
        }
        if i :| 0 <= i < |fields| && fields[i].1 == v {
          assert Values(props[name])[i] == v;
        }
      case JArr(items) => IndexFieldsValues(items);
      case JStr(t) => IndexFieldsValues(Chars(t));
      case _ =>
    }
  }

  /** `authType` takes exactly the own values of the host's `authTypeEnum`
      that are neither objects nor arrays; with no enum on the host every
      value is refused. */
  lemma AuthTypeRoundTrip(props: Props, codec: JsonCodec, value: Option<Json>)
    ensures Assign(props, codec, AuthType, value).Success? <==>
      value.Some? && !value.value.JObj? && !value.value.JArr?
      && "authTypeEnum" in props && OwnValue(props["authTypeEnum"], value.value)
    ensures Assign(props, codec, AuthType, value).Success? ==>
      Read(Assign(props, codec, AuthType, value).value, "authType") == value
  {
    if value.Some? {
      EnumCopyValues(props, "authTypeEnum", value.value);
    }
  }

  /** `connectionData` takes plain objects and strings and refuses every
      other value, numbers and arrays included. */
  lemma ConnectionDataAccepts(props: Props, codec: JsonCodec, value: Option<Json>)
    ensures Assign(props, codec, ConnectionData, value).Success? <==>
      value.Some? && (value.value.JObj? || value.value.JStr?)
    ensures Assign(props, codec, ConnectionData, value).Failure? ==>
      Assign(props, codec, ConnectionData, value).error
        == ShimError("connectionData must be either a stringified object or a literal object")
  {
    var stored := Stored(props, codec, ConnectionData, value);
    assert stored.Success? <==> value.Some? && (value.value.JObj? || value.value.JStr?);
    AssignFollowsStored(props, codec, ConnectionData, value);
  }

  /** `userData` refuses what is not a plain object, then a plain object
      without an own `user` property. */
  lemma UserDataAccepts(props: Props, codec: JsonCodec, value: Option<Json>)
    ensures Assign(props, codec, UserData, value).Success? <==>
      value.Some? && value.value.JObj? && exists i :: 0 <= i < |value.value.fields| && value.value.fields[i].0 == "user"
    ensures !IsPlainObject(value) ==>
      Assign(props, codec, UserData, value) == Failure(ShimError("userData must be an Object when allowObject is true"))
  {
    AssignFollowsStored(props, codec, UserData, value);
  }

  const PARSE_ERROR := ErrorInfo("SyntaxError", "JSON.parse: unexpected character", None)

  /** The `connectionData` getter: an empty stored value reads as `{}`,
      anything else is parsed as JSON text, which may throw. */
  function ConnectionDataOf(props: Props, codec: JsonCodec): (r: Result<Json, ErrorInfo>)
    ensures IsEmpty(Get(props, "connectionData")) ==> r == Success(JObj([]))
    ensures !IsEmpty(Get(props, "connectionData")) ==>
      var parsed := codec.parse(Text(props["connectionData"]));
      (parsed.Some? ==> r == Success(parsed.value)) && (parsed.None? ==> r == Failure(PARSE_ERROR))
  {
    var data := Get(props, "connectionData");
    if IsEmpty(data) then Success(JObj([]))
    else match codec.parse(Text(data.value))
      case Some(v) => Success(v)
      case None => Failure(PARSE_ERROR)
  }

  /** `JSON.parse(text)`, falling back to `{}` when it throws: the
      `passwordData` and `userData` getters. */
  function ParsedOrEmpty(codec: JsonCodec, stored: Option<Json>): (r: Json)
    ensures codec.parse(TemplateText(stored)).Some? ==> r == codec.parse(TemplateText(stored)).value
    ensures codec.parse(TemplateText(stored)).None? ==> r == JObj([])
  {
    match codec.parse(TemplateText(stored))
    case Some(v) => v
    case None => JObj([])
  }

  function PasswordDataOf(props: Props, codec: JsonCodec): Json {
    ParsedOrEmpty(codec, Get(props, "password"))
  }

  function UserDataOf(props: Props, codec: JsonCodec): Json {
    ParsedOrEmpty(codec, Get(props, "username"))
  }

  /** A plain object stored through `connectionData` reads back equal. */
  lemma ConnectionDataObjectRoundTrip(props: Props, codec: JsonCodec, v: Json)
    requires Lawful(codec) && v.JObj?
    ensures ConnectionDataOf(Assign(props, codec, ConnectionData, Some(v)).value, codec) == Success(v)
  {
    var text := codec.stringify(v);
    assert codec.parse(text) == Some(v);
    assert text != "";
  }

  /** JSON text stored through `connectionData` is kept verbatim and reads
      back as the value it denotes; the empty text reads back as `{}`. */
  lemma ConnectionDataTextRoundTrip(props: Props, codec: JsonCodec, v: Json)
    requires Lawful(codec)
    ensures var text := codec.stringify(v);
      var r := Assign(props, codec, ConnectionData, Some(JStr(text)));
      r.Success? && ConnectionDataOf(r.value, codec) == Success(v)
    ensures var r := Assign(props, codec, ConnectionData, Some(JStr("")));
      r.Success? && ConnectionDataOf(r.value, codec) == Success(JObj([]))
  {
    ConnectionDataStoredText(props, codec, v);
    ConnectionDataEmptyText(props, codec);
  }

  lemma ConnectionDataStoredText(props: Props, codec: JsonCodec, v: Json)
    requires Lawful(codec)
    ensures var text := codec.stringify(v);
      var r := Assign(props, codec, ConnectionData, Some(JStr(text)));
      r.Success? && ConnectionDataOf(r.value, codec) == Success(v)
  {
    var text := codec.stringify(v);
    assert codec.parse(text) == Some(v);
    assert text != "";
  }

  lemma ConnectionDataEmptyText(props: Props, codec: JsonCodec)
    ensures var r := Assign(props, codec, ConnectionData, Some(JStr("")));
      r.Success? && ConnectionDataOf(r.value, codec) == Success(JObj([]))
  {
  }

  /** Password data set as a plain object reads back equal; with no
      password stored it reads as `{}`. */
  lemma PasswordDataRoundTrip(props: Props, codec: JsonCodec, v: Json)
    requires Lawful(codec) && v.JObj?
    ensures PasswordDataOf(Assign(props, codec, PasswordData, Some(v)).value, codec) == v
    ensures "password" !in props ==> PasswordDataOf(props, codec) == JObj([])
  {
    assert codec.parse(codec.stringify(v)) == Some(v);
  }

  /** User data set as a plain object with a `user` property reads back
      equal; with no username stored it reads as `{}`. */
  lemma UserDataRoundTrip(props: Props, codec: JsonCodec, v: Json)
    requires Lawful(codec) && v.JObj? && FieldValue(v.fields, "user").Some?
    ensures UserDataOf(Assign(props, codec, UserData, Some(v)).value, codec) == v
    ensures "username" !in props ==> UserDataOf(props, codec) == JObj([])
  {
    assert codec.parse(codec.stringify(v)) == Some(v);
  }

  const NO_PLATFORM_VERSION := ErrorInfo("TypeError", "Cannot read properties of undefined (reading 'split')", None)

  /** The `platformVersion` getter: the first two dot components of the
      host's version, the second reading "undefined" when there is none. */
  function PlatformVersionOf(props: Props): (r: Result<string, ErrorInfo>)
    ensures r.Success? <==> Get(props, "platformVersion").Some? && props["platformVersion"].JStr?
    ensures r.Failure? ==> r.error == NO_PLATFORM_VERSION
  {
    var version := Get(props, "platformVersion");
    if version.None? || !version.value.JStr? then Failure(NO_PLATFORM_VERSION)
    else
      var parts := Split(version.value.s, '.');
      Success(parts[0] + "." + (if |parts| > 1 then parts[1] else "undefined"))
  }

  /** A `major.minor.rest` version reads as `major.minor`. */
  lemma PlatformVersionKeepsTwo(props: Props, major: string, minor: string, rest: string)
    requires '.' !in major && '.' !in minor
    requires Get(props, "platformVersion") == Some(JStr(major + "." + minor + "." + rest))
    ensures PlatformVersionOf(props) == Success(major + "." + minor)
  {
    SplitAfterPart(minor, '.', rest);
    SplitAfterPart(major, '.', minor + "." + rest);
    assert major + "." + minor + "." + rest == major + ['.'] + (minor + ['.'] + rest);
  }

  /** A version with no dot reads with an "undefined" minor part. */
  lemma PlatformVersionWithoutDot(props: Props, major: string)
    requires '.' !in major
    requires Get(props, "platformVersion") == Some(JStr(major))
    ensures PlatformVersionOf(props) == Success(major + ".undefined")
  {
    SplitAfterPart(major, '.', "");
    assert major + "." + "undefined" == major + ".undefined";
  }

  /** The plain getters: the deprecated `language` reads the locale and
      `platformOS` is an alias of `platformOs`. */
  function Read(props: Props, name: string): (r: Option<Json>)
    ensures name == "language" ==> r == Get(props, "locale")
    ensures name == "platformOS" ==> r == Get(props, "platformOs")
    ensures name != "language" && name != "platformOS" ==> r == Get(props, name)
  {
    if name == "language" then Get(props, "locale")
    else if name == "platformOS" then Get(props, "platformOs")
    else Get(props, name)
  }

  const PROGRESS_UNAVAILABLE := "tableau.reportProgress not available. Verify the SHIM version to be >= v2.1.2"

  /** What one `reportProgress(message)` does on the host. */
  datatype Progress = Forwarded(message: Option<Json>) | Logged(text: string)

  /** Reading `log` off the module-level `this`, which is undefined in an
      ES module. */
  const NO_MODULE_THIS := ErrorInfo("TypeError", "Cannot read properties of undefined (reading 'log')", None)

  /** `reportProgress` as written: the fallback calls `this.log` inside an
      arrow function at module level, so it throws whenever the host has no
      `reportProgress`. */
  function ReportProgressAsWritten(hostHasReportProgress: bool, message: Option<Json>): (r: Result<Progress, ErrorInfo>)
    ensures hostHasReportProgress ==> r == Success(Forwarded(message))
    ensures !hostHasReportProgress ==> r == Failure(NO_MODULE_THIS)
  {
    if hostHasReportProgress then Success(Forwarded(message)) else Failure(NO_MODULE_THIS)
  }

  /** On a host without `reportProgress` (a shim older than 2.1.2) every
      progress report throws instead of logging the version hint. */
  lemma ReportProgressThrowsOnOldHosts(message: Option<Json>)
    ensures ReportProgressAsWritten(false, message).Failure?
    ensures ReportProgress(false, message) == Logged(PROGRESS_UNAVAILABLE)
  {
  }

  /** `reportProgress` as intended: forward to the host when it can, else
      log the version hint through the shim's `log`; it never throws. */
  function ReportProgress(hostHasReportProgress: bool, message: Option<Json>): (r: Progress)
    ensures r.Forwarded? <==> hostHasReportProgress
    ensures r.Forwarded? ==> r.message == message
    ensures r.Logged? ==> r.text == PROGRESS_UNAVAILABLE
  {
    if hostHasReportProgress then Forwarded(message) else Logged(PROGRESS_UNAVAILABLE)
  }

  /** The global `tableau` object as the shim sees it. */
  class Host {
    var props: Props
    var hasReportProgress: bool
    /** The calls the host's `reportProgress` and `log` received. */
    var progress: seq<Option<Json>>
    var logs: seq<string>

    constructor (props: Props, hasReportProgress: bool)
      ensures this.props == props && this.hasReportProgress == hasReportProgress
      ensures progress == [] && logs == []
    {
      this.props := props;
      this.hasReportProgress := hasReportProgress;
      this.progress := [];
      this.logs := [];
    }

    /** Assigning through a shim setter: the value is validated, then the
        host property written; a rejected value throws and changes nothing. */
    method Set(codec: JsonCodec, setter: Setter, value: Option<Json>) returns (thrown: Option<ErrorInfo>)
      modifies this
      ensures Assign(old(props), codec, setter, value).Success? ==>
        thrown == None && props == Assign(old(props), codec, setter, value).value
      ensures Assign(old(props), codec, setter, value).Failure? ==>
        thrown == Some(Assign(old(props), codec, setter, value).error) && props == old(props)
      ensures hasReportProgress == old(hasReportProgress) && progress == old(progress) && logs == old(logs)
    {
      match Assign(props, codec, setter, value)
      case Success(after) =>
        props := after;
        thrown := None;
      case Failure(e) =>
        thrown := Some(e);
    }

    /** `reportProgress(message)`, with the fallback logging through the
        host's `log`. */
    method ReportProgressTo(message: Option<Json>)
      modifies this
      ensures props == old(props) && hasReportProgress == old(hasReportProgress)
      ensures hasReportProgress ==> progress == old(progress) + [message] && logs == old(logs)
      ensures !hasReportProgress ==> progress == old(progress) && logs == old(logs) + [PROGRESS_UNAVAILABLE]
    {
      match ReportProgress(hasReportProgress, message)
      case Forwarded(m) =>
        progress := progress + [m];
      case Logged(text) =>
        logs := logs + [text];
    }
  }
}
