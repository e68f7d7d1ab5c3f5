/** Object helpers of the library: copying an object's methods onto another
    and linking properties of one object to another through accessors. */
module Utilities {
  import opened Wrappers
  import opened Json

  /** A property value: a function, known by identity, or plain data. */
  datatype Value = Function(id: nat) | Data(v: Json)

  /** The properties a `for ... in` loop reaching `typeof === 'function'`
      keeps: exactly the function-valued ones. */
  function FunctionsOf(src: map<string, Value>): (r: map<string, Value>)
    ensures r.Keys == set k | k in src && src[k].Function?
    ensures forall k :: k in r ==> r[k] == src[k]
  {
    map k | k in src && src[k].Function? :: src[k]
  }

  /** The names in `tableauProperties`, the list the native dispatcher links. */
  const TABLEAU_PROPERTIES: seq<string> := [
    "authPurpose", "authType", "connectionData", "connectionName", "language", "locale",
    "logLevel", "password", "phase", "platformBuildNumber", "platformEdition", "platformOs",
    "platformVersion", "propertiesReady", "scriptVersion", "username", "usernameAlias", "APIVersion"
  ]

  /** A JavaScript object: its own data properties, and the properties that
      `linkObjectProperties` turned into accessors onto another object. */
  class JsObject {
    var props: map<string, Value>
    var links: map<string, JsObject>

    constructor (props: map<string, Value>)
      ensures this.props == props && this.links == map[]
    {
      this.props := props;
      this.links := map[];
    }

    /** No name is both a data property and an accessor. */
    predicate Valid()
      reads this
    {
      props.Keys !! links.Keys
    }

    /** `o[name]`: an accessor reads the same name on its source object. */
    function Read(name: string): Option<Value>
      reads this, links.Values
    {
      if name in links then
        if name in links[name].props then Some(links[name].props[name]) else None
      else if name in props then Some(props[name])
      else None
    }

    /** `o[name] = value`: an accessor writes the same name on its source
        object; anything else becomes an own data property. */
    method Write(name: string, value: Value)
      requires Valid()
      modifies this, if name in links then {links[name]} else {}
      ensures name in old(links) ==>
        links == old(links) && links[name].props == old(links[name].props)[name := value]
      ensures name in old(links) && old(links)[name] != this ==> props == old(props) && links == old(links)
      ensures name !in old(links) ==> props == old(props)[name := value] && links == old(links)
      ensures !(name in old(links) && old(links)[name] == this) ==> Valid()
    {
      if name in links {
        var source := links[name];
        source.props := source.props[name := value];
      } else {
        props := props[name := value];
      }
    }
  }

  /** `copyFunctions(src, dest)`: every function-valued property of `src`
      is assigned to `dest` under the same name (by reference); nothing else
      of `dest` changes. */
  method CopyFunctions(src: map<string, Value>, dest: JsObject)
    modifies dest
    ensures dest.props == old(dest.props) + FunctionsOf(src)
    ensures dest.links == old(dest.links)
  {
    var keys := src.Keys;
    ghost var done: set<string> := {};
    while keys != {}
      invariant keys + done == src.Keys && keys !! done
      invariant dest.links == old(dest.links)
      invariant dest.props == old(dest.props) + map k | k in done && src[k].Function? :: src[k]
      decreases keys
    {
      var key :| key in keys;
      if src[key].Function? {
        dest.props := dest.props[key := src[key]];
      }
      keys := keys - {key};
      done := done + {key};
    }
    assert done == src.Keys;
  }

  /** Every name of `names` bound to `source`. */
  function LinkedTo<T>(names: seq<string>, source: T): (m: map<string, T>)
    ensures m.Keys == set n | n in names
    ensures forall n :: n in m ==> m[n] == source
  {
    map n | n in names :: source
  }

  /** `m` without the names of `names`. */
  function Without<T>(m: map<string, T>, names: seq<string>): (r: map<string, T>)
    ensures r.Keys == m.Keys - set n | n in names
    ensures forall k :: k in r ==> r[k] == m[k]
  {
    map k | k in m && k !in names :: m[k]
  }

  /** Linking one more name to `source`. */
  lemma LinkOneMore<T>(before: map<string, T>, done: seq<string>, name: string, source: T)
    ensures (before + LinkedTo(done, source))[name := source] == before + LinkedTo(done + [name], source)
  {
    var lhs := (before + LinkedTo(done, source))[name := source];
    var rhs := before + LinkedTo(done + [name], source);
    assert lhs.Keys == rhs.Keys;
  }

  /** Dropping one more name from the data properties. */
  lemma DropOneMore<T>(before: map<string, T>, done: seq<string>, name: string)
    ensures Without(Without(before, done), [name]) == Without(before, done + [name])
  {
    var lhs := Without(Without(before, done), [name]);
    var rhs := Without(before, done + [name]);
    assert lhs.Keys == rhs.Keys;
  }

  /** `linkObjectProperties(source, target, propertyList)`: each listed name
      of `target` becomes an accessor that reads and writes that name on
      `source`, replacing what `target` held under it. */
  method LinkObjectProperties(source: JsObject, target: JsObject, propertyList: seq<string>)
    requires target.Valid()
    modifies target
    ensures target.Valid()
    ensures target.links == old(target.links) + LinkedTo(propertyList, source)
    ensures target.props == Without(old(target.props), propertyList)
    ensures source != target ==>
      forall n :: n in propertyList ==>
        target.Read(n) == (if n in source.props then Some(source.props[n]) else None)
  {
    var i := 0;
    while i < |propertyList|
      invariant 0 <= i <= |propertyList|
      invariant target.props.Keys !! target.links.Keys
      invariant target.links == old(target.links) + LinkedTo(propertyList[..i], source)
      invariant target.props == Without(old(target.props), propertyList[..i])
    {
      var name := propertyList[i];
      assert propertyList[..i + 1] == propertyList[..i] + [name];
      LinkOneMore(old(target.links), propertyList[..i], name, source);
      DropOneMore(old(target.props), propertyList[..i], name);
      target.links := target.links[name := source];
      target.props := Without(target.props, [name]);
      i := i + 1;
    }
    assert propertyList[..i] == propertyList;
  }

  /** A value written through a linked property lands on the source object,
      and reading it back through the target sees it. */
  method WriteThroughLink(sourceProps: map<string, Value>, name: string, value: Value)
    returns (onSource: Option<Value>, throughTarget: Option<Value>)
    ensures onSource == Some(value) && throughTarget == Some(value)
  {
    var source := new JsObject(sourceProps);
    var target := new JsObject(map[name := Data(JNull)]);
    LinkObjectProperties(source, target, [name]);
    assert name in target.links && target.links[name] == source;
    target.Write(name, value);
    onSource := if name in source.props then Some(source.props[name]) else None;
    throughTarget := target.Read(name);
  }
}
