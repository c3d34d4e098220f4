/**
 * The named-list resolver: a first-match scan by name that unwraps a
 * nested sub-record stored under a given key.
 */
module Lookup {
  import opened Wrappers

  /** Position of the first element of `list` that `named` accepts for `name`. */
  function FirstIndex<T>(list: seq<T>, name: string, named: (T, string) -> bool): (r: Option<nat>)
    ensures r.Some? ==> r.value < |list| && named(list[r.value], name)
  {
    if |list| == 0 then None
    else if named(list[0], name) then Some(0)
    else match FirstIndex(list[1..], name, named)
      case None => None
      case Some(i) => Some(i + 1)
  }

  /**
   * `findObject(list, name, key)`: the first element whose name matches; its
   * truthy sub-record under `key` when it has one, otherwise the element itself;
   * None (null) when no element matches. `member(obj, key)` is Some exactly
   * when `obj[key]` is truthy.
   */
  function FindObject<T>(list: seq<T>, name: string, key: string,
                         named: (T, string) -> bool, member: (T, string) -> Option<T>): (r: Option<T>)
    ensures r.None? <==> FirstIndex(list, name, named).None?
    ensures r.Some? ==>
      var i := FirstIndex(list, name, named).value;
      named(list[i], name) && (r == member(list[i], key) || (member(list[i], key).None? && r.value == list[i]))
  {
    match FirstIndex(list, name, named)
    case None => None
    case Some(i) =>
      var sub := member(list[i], key);
      if sub.Some? then sub else Some(list[i])
  }

  /** FirstIndex finds the first match, and finds none exactly when no element matches. */
  lemma {:induction false} FirstIndexIsFirstMatch<T>(list: seq<T>, name: string, named: (T, string) -> bool)
    ensures FirstIndex(list, name, named).Some? ==>
      forall j :: 0 <= j < FirstIndex(list, name, named).value ==> !named(list[j], name)
    ensures FirstIndex(list, name, named).None? <==> forall j :: 0 <= j < |list| ==> !named(list[j], name)
  {
    if |list| > 0 && !named(list[0], name) {
      FirstIndexIsFirstMatch(list[1..], name, named);
      forall j | 1 <= j < |list|
        ensures list[j] == list[1..][j - 1]
      {
      }
    }
  }

  /** An index whose element matches and no earlier one does is the one FirstIndex finds. */
  lemma {:induction false} FirstMatchIsFirstIndex<T>(list: seq<T>, name: string, named: (T, string) -> bool, i: nat)
    requires i < |list| && named(list[i], name)
    requires forall m :: 0 <= m < i ==> !named(list[m], name)
    ensures FirstIndex(list, name, named) == Some(i)
  {
    FirstIndexIsFirstMatch(list, name, named);
  }

  /**
   * What findObject answers: null exactly when no element matches; otherwise
   * the first matching element, or its sub-record under `key` when it has one.
   */
  lemma FindObjectFindsFirstMatch<T>(list: seq<T>, name: string, key: string,
                                     named: (T, string) -> bool, member: (T, string) -> Option<T>)
    ensures FindObject(list, name, key, named, member).None? <==> forall j :: 0 <= j < |list| ==> !named(list[j], name)
    ensures FindObject(list, name, key, named, member).Some? ==>
      exists i :: 0 <= i < |list| && named(list[i], name)
        && (forall j :: 0 <= j < i ==> !named(list[j], name))
        && FindObject(list, name, key, named, member).value
           == (if member(list[i], key).Some? then member(list[i], key).value else list[i])
  {
    FirstIndexIsFirstMatch(list, name, named);
  }

  /** A later element with a duplicate name is never reached once a match exists. */
  lemma {:induction false} FindObjectIgnoresLaterDuplicates<T>(
    front: seq<T>, back: seq<T>, name: string, key: string,
    named: (T, string) -> bool, member: (T, string) -> Option<T>)
    requires exists j :: 0 <= j < |front| && named(front[j], name)
    ensures FindObject(front + back, name, key, named, member) == FindObject(front, name, key, named, member)
  {
    FirstIndexOfPrefix(front, back, name, named);
  }

  lemma {:induction false} FirstIndexOfPrefix<T>(front: seq<T>, back: seq<T>, name: string, named: (T, string) -> bool)
    requires exists j :: 0 <= j < |front| && named(front[j], name)
    ensures FirstIndex(front + back, name, named) == FirstIndex(front, name, named)
  {
    assert (front + back)[0] == front[0];
    if !named(front[0], name) {
      assert (front + back)[1..] == front[1..] + back;
      var j :| 0 <= j < |front| && named(front[j], name);
      assert front[1..][j - 1] == front[j];
      FirstIndexOfPrefix(front[1..], back, name, named);
    }
  }

  /** A loosely typed JavaScript value, as `findObject` receives it from a test. */
  datatype JsValue = Str(s: string) | Bool(b: bool) | Null | Obj(props: map<string, JsValue>)

  predicate Truthy(v: JsValue) {
    match v
    case Str(s) => s != ""
    case Bool(b) => b
    case Null => false
    case Obj(_) => true
  }

  /** `obj['name'] == name` for a string name. */
  predicate JsNamed(obj: JsValue, name: string) {
    obj.Obj? && "name" in obj.props && obj.props["name"] == Str(name)
  }

  /** `obj[key]` when it is truthy. */
  function JsMember(obj: JsValue, key: string): Option<JsValue> {
    if obj.Obj? && key in obj.props && Truthy(obj.props[key]) then Some(obj.props[key]) else None
  }

  /** The three lookups of the findObject unit test. */
  lemma FindObjectTestCases()
    ensures var list := [
              Obj(map["name" := Str("foo"), "cluster" := Obj(map["some" := Str("sub-object")]), "some" := Str("object")]),
              Obj(map["name" := Str("bar"), "some" := Str("object"), "cluster" := Obj(map["sone" := Str("sub-object")])])];
            && FindObject(list, "foo", "cluster", JsNamed, JsMember) == Some(Obj(map["some" := Str("sub-object")]))
            && FindObject(list, "bar", "context", JsNamed, JsMember) == Some(list[1])
            && FindObject(list, "nonexistent", "context", JsNamed, JsMember) == None
  {
  }
}
