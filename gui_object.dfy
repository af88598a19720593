/**
 * GUIobject of packages/gui/gui_objects/gui_object.py as a heap object: a
 * property map that send_info updates in place and a list of sub-objects.
 * The ghost field Model is the tree as a GuiTree.Node value, and both
 * methods are proved against the GuiTree functions on it.
 */
module GuiObjects {
  import opened Wrappers
  import opened GuiTree

  class GuiObject {
    var subObjects: seq<GuiObject>
    var properties: map<string, Value>

    /** The tree rooted here, as a value. */
    ghost var Model: Node
    /** This object and every object below it. */
    ghost var Repr: set<object>

    /**
     * Object invariant: the sub-objects form a tree (no object is shared or
     * reachable from itself) and Model mirrors the properties and sub-objects.
     */
    ghost predicate Valid()
      reads this, Repr
      decreases Repr
    {
      && this in Repr
      && Model.properties == properties
      && |Model.subObjects| == |subObjects|
      && (forall i :: 0 <= i < |subObjects| ==>
            && subObjects[i] in Repr
            && subObjects[i].Repr <= Repr
            && this !in subObjects[i].Repr
            && subObjects[i].Valid()
            && subObjects[i].Model == Model.subObjects[i])
      && (forall i, j :: 0 <= i < j < |subObjects| ==> subObjects[i].Repr !! subObjects[j].Repr)
    }

    /** A GUI object over already built, pairwise separate sub-objects. */
    constructor (subObjects: seq<GuiObject>, properties: map<string, Value>)
      requires forall i :: 0 <= i < |subObjects| ==> subObjects[i].Valid()
      requires forall i, j :: 0 <= i < j < |subObjects| ==> subObjects[i].Repr !! subObjects[j].Repr
      ensures Valid() && fresh(Repr - ReprOf(subObjects))
      ensures this.subObjects == subObjects && this.properties == properties
      ensures Model == Node(properties, Models(subObjects))
    {
      ghost var below := ReprOf(subObjects);
      ghost var models := Models(subObjects);
      this.subObjects := subObjects;
      this.properties := properties;
      Model := Node(properties, models);
      Repr := {this} + below;
      new;
      assert forall i :: 0 <= i < |subObjects| ==> subObjects[i].Model == models[i];
    }

    /** get_info: read `property` of the first object carrying `id` that has a value for it. */
    method GetInfo(id: string, property: string) returns (r: Result<Value, GuiError>)
      requires Valid()
      ensures r == GuiTree.GetInfo(Model, id, property)
      decreases Repr
    {
      if HasId(properties, id) {
        if property !in properties {
          return Err(KeyError(property));
        }
        return Ok(properties[property]);
      }
      var i := 0;
      while i < |subObjects|
        invariant 0 <= i <= |subObjects|
        invariant GetInfoIn(Model.subObjects, id, property) == GetInfoIn(Model.subObjects[i..], id, property)
      {
        assert Model.subObjects[i..][1..] == Model.subObjects[i + 1..];
        var info := subObjects[i].GetInfo(id, property);
        if info.Err? {
          return info;
        }
        if info.value != Null {
          return info;
        }
        i := i + 1;
      }
      return Ok(Null);
    }

    /**
     * send_info: store `info` under `property` in the first object (pre-order)
     * carrying `id`, and report whether there was one.
     */
    method SendInfo(id: string, property: string, info: Value) returns (found: bool)
      requires Valid()
      modifies Repr
      ensures Valid() && Repr == old(Repr)
      ensures (Model, found) == SetInfo(old(Model), id, property, info)
      ensures !found ==> unchanged(Repr)
      decreases Repr, 1
    {
      if HasId(properties, id) {
        properties := properties[property := info];
        Model := Node(properties, Model.subObjects);
        return true;
      }
      var i := 0;
      while i < |subObjects|
        invariant 0 <= i <= |subObjects|
        invariant unchanged(old(Repr))
        invariant forall j :: 0 <= j < i ==> !SetInfo(old(Model).subObjects[j], id, property, info).1
      {
        var state := SendInfoAt(i, id, property, info);
        if state {
          SetInfoInFoundAt(old(Model).subObjects, id, property, info, i);
          return true;
        }
        i := i + 1;
      }
      SetInfoInNoneFound(old(Model).subObjects, id, property, info);
      assert Model == old(Model);
      return false;
    }

    /** One step of the send_info loop: pass the request to sub-object i. */
    method SendInfoAt(i: nat, id: string, property: string, info: Value) returns (found: bool)
      requires Valid() && i < |subObjects|
      modifies Repr
      ensures Valid() && Repr == old(Repr)
      ensures var r := SetInfo(old(Model).subObjects[i], id, property, info);
              found == r.1 && Model == Node(old(Model).properties, old(Model).subObjects[i := r.0])
      ensures !found ==> unchanged(Repr)
      decreases Repr, 0
    {
      var child := subObjects[i];
      ghost var before := child.Model;
      found := child.SendInfo(id, property, info);
      SetInfoSpec(before, id, property, info);
      if found {
        assert forall j :: 0 <= j < |subObjects| && j != i ==>
          subObjects[j] !in child.Repr && subObjects[j].Repr !! child.Repr;
        Model := Node(properties, Model.subObjects[i := child.Model]);
      }
    }
  }

  /** The trees rooted at a list of objects, as values. */
  ghost function Models(cs: seq<GuiObject>): (ms: seq<Node>)
    reads cs
    ensures |ms| == |cs| && forall i :: 0 <= i < |cs| ==> ms[i] == cs[i].Model
  {
    if cs == [] then [] else [cs[0].Model] + Models(cs[1..])
  }

  /** Every object of the trees rooted at a list of objects. */
  ghost function ReprOf(cs: seq<GuiObject>): (r: set<object>)
    reads cs
    ensures forall i :: 0 <= i < |cs| ==> cs[i].Repr <= r
  {
    if cs == [] then {} else cs[0].Repr + ReprOf(cs[1..])
  }
}
