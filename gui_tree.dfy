/**
 * The GUI object tree as a value: every object carries its keyword properties
 * and its ordered list of sub-objects. `GetInfo` and `SetInfo` are the
 * id-addressed read and write of packages/gui/gui_objects/gui_object.py;
 * the lemmas describe both in terms of the pre-order list of the tree's
 * property maps.
 */
module GuiTree {
  import opened Wrappers

  /** A property value; `Null` is Python's None. */
  datatype Value = Null | Str(s: string) | Int(i: int) | Bool(b: bool) | Real(r: real)

  /** The exception a lookup of a missing property key raises. */
  datatype GuiError = KeyError(key: string)

  /** One GUI object: its properties and its ordered sub-objects. */
  datatype Node = Node(properties: map<string, Value>, subObjects: seq<Node>)

  /** The shape of a tree, without its properties. */
  datatype Outline = Outline(subs: seq<Outline>)

  /** `properties.get("id", None) == id`: the object carries exactly this id. */
  predicate HasId(properties: map<string, Value>, id: string) {
    "id" in properties && properties["id"] == Str(id)
  }

  // ---------------------------------------------------------------------------
  // The two operations
  // ---------------------------------------------------------------------------

  /**
   * get_info: a matching object answers with its own property (a missing key
   * raises); otherwise the sub-objects are asked in order and the first
   * answer that is not None wins.
   */
  function GetInfo(n: Node, id: string, property: string): Result<Value, GuiError>
    decreases n
  {
    if HasId(n.properties, id) then
      if property in n.properties then Ok(n.properties[property]) else Err(KeyError(property))
    else
      GetInfoIn(n.subObjects, id, property)
  }

  /** The loop of get_info over a list of sub-objects. */
  function GetInfoIn(cs: seq<Node>, id: string, property: string): Result<Value, GuiError>
    decreases cs
  {
    if cs == [] then Ok(Null)
    else
      match GetInfo(cs[0], id, property)
      case Err(e) => Err(e)
      case Ok(info) => if info != Null then Ok(info) else GetInfoIn(cs[1..], id, property)
  }

  /**
   * send_info: the first matching object (pre-order) gets `property := info`;
   * the flag says whether one was found.
   */
  function SetInfo(n: Node, id: string, property: string, info: Value): (Node, bool)
    decreases n
  {
    if HasId(n.properties, id) then
      (Node(n.properties[property := info], n.subObjects), true)
    else
      var (subs, found) := SetInfoIn(n.subObjects, id, property, info);
      (Node(n.properties, subs), found)
  }

  /** The loop of send_info over a list of sub-objects, stopping at the first success. */
  function SetInfoIn(cs: seq<Node>, id: string, property: string, info: Value): (seq<Node>, bool)
    decreases cs
  {
    if cs == [] then ([], false)
    else
      var (c, found) := SetInfo(cs[0], id, property, info);
      if found then ([c] + cs[1..], true)
      else
        var (rest, foundLater) := SetInfoIn(cs[1..], id, property, info);
        ([c] + rest, foundLater)
  }

  // ---------------------------------------------------------------------------
  // Reference views: pre-order list of property maps, and the shape
  // ---------------------------------------------------------------------------

  /** The property maps of every object of the tree, in pre-order. */
  function PreOrder(n: Node): seq<map<string, Value>>
    decreases n
  {
    [n.properties] + PreOrderIn(n.subObjects)
  }

  function PreOrderIn(cs: seq<Node>): seq<map<string, Value>>
    decreases cs
  {
    if cs == [] then [] else PreOrder(cs[0]) + PreOrderIn(cs[1..])
  }

  function OutlineOf(n: Node): Outline
    decreases n
  {
    Outline(seq(|n.subObjects|, i requires 0 <= i < |n.subObjects| => OutlineOf(n.subObjects[i])))
  }

  /** Index of the first map carrying `id`, or |ps| when none does. */
  function FindFirst(ps: seq<map<string, Value>>, id: string): (k: nat)
    ensures k <= |ps|
    ensures k < |ps| ==> HasId(ps[k], id)
    ensures forall j :: 0 <= j < k ==> !HasId(ps[j], id)
  {
    if ps == [] then 0
    else if HasId(ps[0], id) then 0
    else 1 + FindFirst(ps[1..], id)
  }

  // ---------------------------------------------------------------------------
  // Lemmas
  // ---------------------------------------------------------------------------

  lemma PreOrderInCons(c: Node, rest: seq<Node>)
    ensures PreOrderIn([c] + rest) == PreOrder(c) + PreOrderIn(rest)
  {
    assert ([c] + rest)[1..] == rest;
  }

  lemma FindFirstAppend(a: seq<map<string, Value>>, b: seq<map<string, Value>>, id: string)
    ensures FindFirst(a + b, id) == if FindFirst(a, id) < |a| then FindFirst(a, id) else |a| + FindFirst(b, id)
  {
    var k := FindFirst(a + b, id);
    if FindFirst(a, id) < |a| {
      assert (a + b)[FindFirst(a, id)] == a[FindFirst(a, id)];
    } else {
      var kb := FindFirst(b, id);
      assert forall j :: 0 <= j < |a| ==> (a + b)[j] == a[j];
      assert forall j :: |a| <= j < |a| + kb ==> (a + b)[j] == b[j - |a|];
      if kb < |b| {
        assert (a + b)[|a| + kb] == b[kb];
      }
    }
  }

  lemma UpdateAppend<T>(a: seq<T>, b: seq<T>, k: nat, x: T)
    requires k < |a| + |b|
    ensures (a + b)[k := x] == if k < |a| then a[k := x] + b else a + b[k - |a| := x]
  {
  }

  /**
   * send_info, described on the pre-order list: it reports a match exactly
   * when some object carries the id; it changes only the property map of the
   * first such object, and only its `property` entry; and without a match it
   * changes nothing.
   */
  lemma {:induction false} SetInfoSpec(n: Node, id: string, property: string, info: Value)
    ensures var ps := PreOrder(n);
            var k := FindFirst(ps, id);
            var r := SetInfo(n, id, property, info);
            && (r.1 <==> k < |ps|)
            && (!r.1 ==> r.0 == n)
            && (r.1 ==> PreOrder(r.0) == ps[k := ps[k][property := info]])
    decreases n
  {
    var ps := PreOrder(n);
    var subs := n.subObjects;
    var rest := PreOrderIn(subs);
    assert ps == [n.properties] + rest;
    FindFirstAppend([n.properties], rest, id);
    if !HasId(n.properties, id) {
      SetInfoInSpec(subs, id, property, info);
      var r := SetInfoIn(subs, id, property, info);
      var t := Node(n.properties, r.0);
      assert PreOrder(t) == [n.properties] + PreOrderIn(r.0);
      if r.1 {
        UpdateAppend([n.properties], rest, FindFirst(ps, id), ps[FindFirst(ps, id)][property := info]);
      }
    } else {
      var t := Node(n.properties[property := info], subs);
      assert PreOrder(t) == [t.properties] + rest;
    }
  }

  lemma {:induction false} SetInfoInSpec(cs: seq<Node>, id: string, property: string, info: Value)
    ensures var ps := PreOrderIn(cs);
            var k := FindFirst(ps, id);
            var r := SetInfoIn(cs, id, property, info);
            && (r.1 <==> k < |ps|)
            && (!r.1 ==> r.0 == cs)
            && (r.1 ==> PreOrderIn(r.0) == ps[k := ps[k][property := info]])
    decreases cs
  {
    if cs != [] {
      var a := PreOrder(cs[0]);
      var b := PreOrderIn(cs[1..]);
      var ps := PreOrderIn(cs);
      assert ps == a + b;
      FindFirstAppend(a, b, id);
      SetInfoSpec(cs[0], id, property, info);
      var c := SetInfo(cs[0], id, property, info);
      var k := FindFirst(ps, id);
      if c.1 {
        PreOrderInCons(c.0, cs[1..]);
        UpdateAppend(a, b, k, ps[k][property := info]);
      } else {
        SetInfoInSpec(cs[1..], id, property, info);
        var rest := SetInfoIn(cs[1..], id, property, info);
        PreOrderInCons(c.0, rest.0);
        if rest.1 {
          UpdateAppend(a, b, k, ps[k][property := info]);
        }
      }
    }
  }

  /**
   * The send_info loop over sub-objects when object i is the first to report
   * a match: exactly that object is replaced.
   */
  lemma {:induction false} SetInfoInFoundAt(cs: seq<Node>, id: string, property: string, info: Value, i: nat)
    requires i < |cs|
    requires forall j :: 0 <= j < i ==> !SetInfo(cs[j], id, property, info).1
    requires SetInfo(cs[i], id, property, info).1
    ensures SetInfoIn(cs, id, property, info) == (cs[i := SetInfo(cs[i], id, property, info).0], true)
    decreases i
  {
    if i > 0 {
      SetInfoSpec(cs[0], id, property, info);
      assert forall j :: 0 <= j < i - 1 ==> cs[1..][j] == cs[j + 1];
      SetInfoInFoundAt(cs[1..], id, property, info, i - 1);
      assert [cs[0]] + cs[1..][i - 1 := SetInfo(cs[i], id, property, info).0]
             == cs[i := SetInfo(cs[i], id, property, info).0];
    } else {
      assert [SetInfo(cs[0], id, property, info).0] + cs[1..] == cs[0 := SetInfo(cs[0], id, property, info).0];
    }
  }

  /** The send_info loop when no sub-object reports a match: nothing changes. */
  lemma {:induction false} SetInfoInNoneFound(cs: seq<Node>, id: string, property: string, info: Value)
    requires forall j :: 0 <= j < |cs| ==> !SetInfo(cs[j], id, property, info).1
    ensures SetInfoIn(cs, id, property, info) == (cs, false)
    decreases cs
  {
    if cs != [] {
      SetInfoSpec(cs[0], id, property, info);
      assert forall j :: 0 <= j < |cs| - 1 ==> cs[1..][j] == cs[j + 1];
      SetInfoInNoneFound(cs[1..], id, property, info);
      assert [cs[0]] + cs[1..] == cs;
    }
  }

  /** send_info never adds, removes or reorders objects: the shape of the tree is kept. */
  lemma {:induction false} SetInfoKeepsOutline(n: Node, id: string, property: string, info: Value)
    ensures OutlineOf(SetInfo(n, id, property, info).0) == OutlineOf(n)
    decreases n
  {
    if !HasId(n.properties, id) {
      SetInfoInKeepsOutline(n.subObjects, id, property, info);
      var t := SetInfo(n, id, property, info).0;
      assert OutlineOf(t).subs == OutlineOf(n).subs;
    }
  }

  lemma {:induction false} SetInfoInKeepsOutline(cs: seq<Node>, id: string, property: string, info: Value)
    ensures var r := SetInfoIn(cs, id, property, info).0;
            && |r| == |cs|
            && (forall i :: 0 <= i < |cs| ==> OutlineOf(r[i]) == OutlineOf(cs[i]))
    decreases cs
  {
    if cs != [] {
      SetInfoKeepsOutline(cs[0], id, property, info);
      var c := SetInfo(cs[0], id, property, info);
      if !c.1 {
        SetInfoInKeepsOutline(cs[1..], id, property, info);
        var rest := SetInfoIn(cs[1..], id, property, info);
        var r := [c.0] + rest.0;
        forall i | 0 <= i < |cs|
          ensures OutlineOf(r[i]) == OutlineOf(cs[i])
        {
          if i > 0 { assert r[i] == rest.0[i - 1]; }
        }
      }
    }
  }

  /**
   * get_info, described on the pre-order list: with no object carrying the id
   * the answer is None; when the first such object lacks the key the lookup
   * raises; when it holds a value other than None that value is the answer.
   */
  lemma {:induction false} GetInfoFirstMatch(n: Node, id: string, property: string)
    ensures var ps := PreOrder(n);
            var k := FindFirst(ps, id);
            && (k == |ps| ==> GetInfo(n, id, property) == Ok(Null))
            && (k < |ps| && property !in ps[k] ==> GetInfo(n, id, property) == Err(KeyError(property)))
            && (k < |ps| && property in ps[k] && ps[k][property] != Null ==>
                  GetInfo(n, id, property) == Ok(ps[k][property]))
    decreases n
  {
    var rest := PreOrderIn(n.subObjects);
    FindFirstAppend([n.properties], rest, id);
    if !HasId(n.properties, id) {
      GetInfoInFirstMatch(n.subObjects, id, property);
    }
  }

  lemma {:induction false} GetInfoInFirstMatch(cs: seq<Node>, id: string, property: string)
    ensures var ps := PreOrderIn(cs);
            var k := FindFirst(ps, id);
            && (k == |ps| ==> GetInfoIn(cs, id, property) == Ok(Null))
            && (k < |ps| && property !in ps[k] ==> GetInfoIn(cs, id, property) == Err(KeyError(property)))
            && (k < |ps| && property in ps[k] && ps[k][property] != Null ==>
                  GetInfoIn(cs, id, property) == Ok(ps[k][property]))
    decreases cs
  {
    if cs != [] {
      var a := PreOrder(cs[0]);
      var b := PreOrderIn(cs[1..]);
      assert PreOrderIn(cs) == a + b;
      FindFirstAppend(a, b, id);
      GetInfoFirstMatch(cs[0], id, property);
      if FindFirst(a, id) == |a| {
        GetInfoInFirstMatch(cs[1..], id, property);
      }
    }
  }

  lemma FindFirstUpdate(ps: seq<map<string, Value>>, id: string, property: string, info: Value)
    requires FindFirst(ps, id) < |ps|
    requires property != "id" || info == Str(id)
    ensures var k := FindFirst(ps, id);
            FindFirst(ps[k := ps[k][property := info]], id) == k
  {
    var k := FindFirst(ps, id);
    var qs := ps[k := ps[k][property := info]];
    assert HasId(qs[k], id);
    assert forall j :: 0 <= j < k ==> qs[j] == ps[j];
  }

  /**
   * Round trip: once send_info has found the id and stored a value other than
   * None, get_info with the same id and property answers that value, unless
   * the write replaced the object's own id by another one.
   */
  lemma SendThenGet(n: Node, id: string, property: string, info: Value)
    requires SetInfo(n, id, property, info).1
    requires info != Null
    requires property != "id" || info == Str(id)
    ensures GetInfo(SetInfo(n, id, property, info).0, id, property) == Ok(info)
  {
    var ps := PreOrder(n);
    var k := FindFirst(ps, id);
    var t := SetInfo(n, id, property, info).0;
    SetInfoSpec(n, id, property, info);
    FindFirstUpdate(ps, id, property, info);
    GetInfoFirstMatch(t, id, property);
  }

  /** A matching object answers by itself: its sub-objects are never consulted. */
  lemma MatchIgnoresSubObjects(props: map<string, Value>, cs: seq<Node>, ds: seq<Node>, id: string, property: string)
    requires HasId(props, id)
    ensures GetInfo(Node(props, cs), id, property) == GetInfo(Node(props, ds), id, property)
    ensures property in props ==> GetInfo(Node(props, cs), id, property) == Ok(props[property])
  {
  }

  /**
   * A matching object whose value is None does not end the search: the
   * sub-object loop goes on to the later siblings.
   */
  lemma NullMatchContinues(cs: seq<Node>, id: string, property: string)
    requires cs != [] && HasId(cs[0].properties, id)
    requires property in cs[0].properties && cs[0].properties[property] == Null
    ensures GetInfoIn(cs, id, property) == GetInfoIn(cs[1..], id, property)
  {
  }

  /** The consequence: get_info may answer from a later match than the first one. */
  lemma NullMatchExample()
    ensures var first := Node(map["id" := Str("a"), "text" := Null], []);
            var second := Node(map["id" := Str("a"), "text" := Int(5)], []);
            var root := Node(map[], [first, second]);
            && FindFirst(PreOrder(root), "a") == 1
            && GetInfo(root, "a", "text") == Ok(Int(5))
  {
    var first := Node(map["id" := Str("a"), "text" := Null], []);
    var second := Node(map["id" := Str("a"), "text" := Int(5)], []);
    var root := Node(map[], [first, second]);
    assert PreOrderIn([second]) == [second.properties];
    assert PreOrderIn([first, second]) == [first.properties] + PreOrderIn([second]);
    assert PreOrder(root) == [root.properties, first.properties, second.properties];
    assert [first, second][1..] == [second];
    assert GetInfo(first, "a", "text") == Ok(Null);
    assert GetInfo(second, "a", "text") == Ok(Int(5));
    assert GetInfoIn([second], "a", "text") == Ok(Int(5));
  }

  /** A leaf that does not carry the id answers None and accepts no write. */
  lemma LeafWithoutId(props: map<string, Value>, id: string, property: string, info: Value)
    requires !HasId(props, id)
    ensures GetInfo(Node(props, []), id, property) == Ok(Null)
    ensures SetInfo(Node(props, []), id, property, info) == (Node(props, []), false)
  {
  }
}
