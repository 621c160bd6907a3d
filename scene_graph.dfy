/** A scene-graph node of the VR framework: a named object with a
    transform, optional render data, camera, camera rig and eye-pointee
    holder, an ordered list of children and a parent back-link. The Java
    wrapper delegates all of this to native state; here that state is held
    in the node's fields, as the wrapper's doc comments describe it. The
    child iterator, the one piece of logic of the wrapper itself, keeps a
    live index into the node's children. */
module SceneGraph {
  import opened Wrappers

  /** Handles of the components a node can hold; only their identity matters. */
  datatype Transform = Transform(handle: nat)
  datatype RenderData = RenderData(handle: nat)
  datatype Camera = Camera(handle: nat)
  datatype CameraRig = CameraRig(handle: nat)
  datatype EyePointeeHolder = EyePointeeHolder(handle: nat)

  /** The Java exceptions thrown by the operations modelled here. */
  datatype JavaException =
    | IndexOutOfBounds(index: int, childrenCount: int)
    | UnsupportedOperation

  /** The position of the first occurrence of `x` in `s`. */
  function FirstIndex<T(==)>(s: seq<T>, x: T): (i: nat)
    requires x in s
    ensures i < |s| && s[i] == x && x !in s[..i]
  {
    if s[0] == x then 0 else 1 + FirstIndex(s[1..], x)
  }

  /** `s` without its first occurrence of `x`; `s` itself when `x` is absent. */
  function RemoveFirst<T(==)>(s: seq<T>, x: T): (r: seq<T>)
    ensures x !in s ==> r == s
    ensures x in s ==> |r| == |s| - 1 && multiset(r) == multiset(s) - multiset{x}
    ensures x in s ==> r == s[..FirstIndex(s, x)] + s[FirstIndex(s, x) + 1..]
  {
    if x in s then
      var i := FirstIndex(s, x);
      assert s == s[..i] + [s[i]] + s[i + 1..];
      s[..i] + s[i + 1..]
    else
      s
  }

  /** Removing a child that was just appended, and was not a child before,
      gives back the earlier list. */
  lemma RemoveAppended<T>(s: seq<T>, x: T)
    requires x !in s
    ensures RemoveFirst(s + [x], x) == s
  {
    var i := FirstIndex(s + [x], x);
    assert (s + [x])[..|s|] == s;
  }

  class SceneObject {
    var name: string
    var transform: Option<Transform>
    var renderData: Option<RenderData>
    var camera: Option<Camera>
    var cameraRig: Option<CameraRig>
    var eyePointeeHolder: Option<EyePointeeHolder>
    var parent: SceneObject?
    var children: seq<SceneObject>

    /** An empty node with the given (new) transform attached. */
    constructor (t: Transform)
      ensures transform == Some(t)
      ensures renderData == None && camera == None && cameraRig == None && eyePointeeHolder == None
      ensures parent == null && children == [] && name == ""
    {
      name := "";
      transform := Some(t);
      renderData := None;
      camera := None;
      cameraRig := None;
      eyePointeeHolder := None;
      parent := null;
      children := [];
    }

    /** An empty node with a transform and new render data (holding the mesh) attached. */
    constructor WithRenderData(t: Transform, rd: RenderData)
      ensures transform == Some(t) && renderData == Some(rd)
      ensures camera == None && cameraRig == None && eyePointeeHolder == None
      ensures parent == null && children == [] && name == ""
    {
      name := "";
      transform := Some(t);
      renderData := Some(rd);
      camera := None;
      cameraRig := None;
      eyePointeeHolder := None;
      parent := null;
      children := [];
    }

    method GetName() returns (r: string)
      ensures r == name
    {
      r := name;
    }

    method SetName(newName: string)
      modifies this`name
      ensures name == newName
    {
      name := newName;
    }

    method AttachTransform(t: Transform)
      modifies this`transform
      ensures transform == Some(t)
    {
      transform := Some(t);
    }

    method DetachTransform()
      modifies this`transform
      ensures transform == None
    {
      transform := None;
    }

    /** The attached transform, None (Java's null) when there is none. */
    method GetTransform() returns (r: Option<Transform>)
      ensures r == transform
    {
      r := transform;
    }

    method AttachRenderData(rd: RenderData)
      modifies this`renderData
      ensures renderData == Some(rd)
    {
      renderData := Some(rd);
    }

    method DetachRenderData()
      modifies this`renderData
      ensures renderData == None
    {
      renderData := None;
    }

    method GetRenderData() returns (r: Option<RenderData>)
      ensures r == renderData
    {
      r := renderData;
    }

    method AttachCamera(c: Camera)
      modifies this`camera
      ensures camera == Some(c)
    {
      camera := Some(c);
    }

    method DetachCamera()
      modifies this`camera
      ensures camera == None
    {
      camera := None;
    }

    method GetCamera() returns (r: Option<Camera>)
      ensures r == camera
    {
      r := camera;
    }

    method AttachCameraRig(rig: CameraRig)
      modifies this`cameraRig
      ensures cameraRig == Some(rig)
    {
      cameraRig := Some(rig);
    }

    method DetachCameraRig()
      modifies this`cameraRig
      ensures cameraRig == None
    {
      cameraRig := None;
    }

    method GetCameraRig() returns (r: Option<CameraRig>)
      ensures r == cameraRig
    {
      r := cameraRig;
    }

    method AttachEyePointeeHolder(holder: EyePointeeHolder)
      modifies this`eyePointeeHolder
      ensures eyePointeeHolder == Some(holder)
    {
      eyePointeeHolder := Some(holder);
    }

    method DetachEyePointeeHolder()
      modifies this`eyePointeeHolder
      ensures eyePointeeHolder == None
    {
      eyePointeeHolder := None;
    }

    method GetEyePointeeHolder() returns (r: Option<EyePointeeHolder>)
      ensures r == eyePointeeHolder
    {
      r := eyePointeeHolder;
    }

    /** The node this one was added to as a child, null for a root. */
    method GetParent() returns (r: SceneObject?)
      ensures r == parent
    {
      r := parent;
    }

    /** Appends `child` and makes this node its parent. */
    method AddChildObject(child: SceneObject)
      modifies this`children, child`parent
      ensures children == old(children) + [child]
      ensures child.parent == this
    {
      children := children + [child];
      child.parent := this;
    }

    /** Removes the first occurrence of `child`; its parent link is cleared
        when it pointed to this node. */
    method RemoveChildObject(child: SceneObject)
      modifies this`children, child`parent
      ensures children == RemoveFirst(old(children), child)
      ensures child.parent == if old(child.parent) == this then null else old(child.parent)
    {
      children := RemoveFirst(children, child);
      if child.parent == this {
        child.parent := null;
      }
    }

    method GetChildrenCount() returns (count: int)
      ensures count == |children|
    {
      count := |children|;
    }

    /** The child at `index`, or the bounds exception when there is none. */
    method GetChildByIndex(index: int) returns (r: Result<SceneObject, JavaException>)
      ensures r.Ok? <==> 0 <= index < |children|
      ensures r.Ok? ==> r.value == children[index]
      ensures r.Err? ==> r.error == IndexOutOfBounds(index, |children|)
    {
      if 0 <= index < |children| {
        r := Ok(children[index]);
      } else {
        r := Err(IndexOutOfBounds(index, |children|));
      }
    }

    /** A new iteration over this node's children, starting at index 0. */
    method ChildrenOf() returns (iterable: Children)
      ensures fresh(iterable) && iterable.node == this && iterable.index == 0
    {
      iterable := new Children(this);
    }
  }

  /** Both the Iterable and its Iterator: `Iterator()` returns the object
      itself, so the index is shared by every pass over it. */
  class Children {
    const node: SceneObject
    var index: int

    constructor (node: SceneObject)
      ensures this.node == node && index == 0
    {
      this.node := node;
      index := 0;
    }

    method Iterator() returns (it: Children)
      ensures it == this
    {
      it := this;
    }

    method HasNext() returns (b: bool)
      ensures b <==> index < |node.children|
    {
      b := index < |node.children|;
    }

    /** The child at the current index; the index advances even when the
        lookup throws. */
    method Next() returns (r: Result<SceneObject, JavaException>)
      modifies this`index
      ensures index == old(index) + 1
      ensures r.Ok? <==> 0 <= old(index) < |node.children|
      ensures r.Ok? ==> r.value == node.children[old(index)]
      ensures r.Err? ==> r.error == IndexOutOfBounds(old(index), |node.children|)
    {
      var current := index;
      index := index + 1;
      r := node.GetChildByIndex(current);
    }

    /** Removal through the iterator is never supported. */
    method Remove() returns (r: Result<(), JavaException>)
      ensures r == Err(UnsupportedOperation)
    {
      r := Err(UnsupportedOperation);
    }
  }

  /** The enhanced for loop over `node.children()`, run twice over the same
      Iterable: the first pass visits every child once, in order; the
      second gets the exhausted iterator back, whose first `hasNext()` is
      false, so it visits nothing. */
  method IterateTwice(node: SceneObject) returns (firstPass: seq<SceneObject>, secondHasNext: bool)
    ensures firstPass == node.children
    ensures !secondHasNext
  {
    var iterable := node.ChildrenOf();
    firstPass := [];
    var it := iterable.Iterator();
    var more := it.HasNext();
    while more
      invariant it == iterable && it.node == node
      invariant 0 <= it.index <= |node.children|
      invariant firstPass == node.children[..it.index]
      invariant more <==> it.index < |node.children|
      decreases |node.children| - it.index
    {
      var child := it.Next();
      firstPass := firstPass + [child.value];
      more := it.HasNext();
    }
    it := iterable.Iterator();
    secondHasNext := it.HasNext();
  }

  /** Attaching a second render data replaces the first; detaching leaves none. */
  method ReplaceRenderData(t: Transform, a: RenderData, b: RenderData)
    returns (afterReplace: Option<RenderData>, afterDetach: Option<RenderData>)
    ensures afterReplace == Some(b) && afterDetach == None
  {
    var n := new SceneObject(t);
    n.AttachRenderData(a);
    n.AttachRenderData(b);
    afterReplace := n.GetRenderData();
    n.DetachRenderData();
    afterDetach := n.GetRenderData();
  }

  /** Build a root with children `a`, `b`; remove `a`: one child remains
      at index 0, `b`, and `a` has no parent. A fresh node has a transform,
      no children and no parent. */
  method BuildAndPrune(tr: Transform, ta: Transform, tb: Transform)
    returns (root: SceneObject, a: SceneObject, b: SceneObject,
             count: int, first: Result<SceneObject, JavaException>, aParent: SceneObject?)
    ensures root.transform == Some(tr)
    ensures count == 1 && first == Ok(b) && aParent == null && b.parent == root
  {
    root := new SceneObject(tr);
    a := new SceneObject(ta);
    b := new SceneObject(tb);
    root.AddChildObject(a);
    root.AddChildObject(b);
    root.RemoveChildObject(a);
    assert [a, b][..0] == [] && [a, b][1..] == [b];
    count := root.GetChildrenCount();
    first := root.GetChildByIndex(0);
    aParent := a.GetParent();
  }
}
