/** The AR sample application: a pool of at most 20 anchors that grows with
    each tap on a detected plane and then recycles its entries, and the
    touch handler's drag state machine, which decides which node is being
    dragged and which pick callbacks the virtual objects receive. The AR
    SDK (anchor creation, hit tests, picking) is outside the model: its
    answers arrive as parameters. */
module ArSample {
  import opened Wrappers

  /** MAX_VIRTUAL_OBJECTS */
  const MaxVirtualObjects: nat := 20

  /** A node of the scene (an SXRNode); only its identity matters. */
  datatype Node = Node(handle: nat)

  /** The 4x4 pose matrix an AR hit test yields, as 16 floats. */
  type Pose = seq<real>

  /** An AR anchor: its identity, the name the sample gives it, its pose. */
  datatype Anchor = Anchor(handle: nat, name: string, pose: Pose)

  function Digit(d: nat): char
    requires d < 10
  {
    (('0' as int) + d) as char
  }

  /** Java's decimal rendering of a non-negative int. */
  function Decimal(n: nat): (s: string)
    ensures |s| >= 1
    ensures forall i :: 0 <= i < |s| ==> '0' <= s[i] <= '9'
  {
    if n < 10 then [Digit(n)] else Decimal(n / 10) + [Digit(n % 10)]
  }

  /** Different counts are rendered differently. */
  lemma {:induction false} DecimalInjective(a: nat, b: nat)
    requires Decimal(a) == Decimal(b)
    ensures a == b
  {
    if a >= 10 && b >= 10 {
      var sa, sb := Decimal(a), Decimal(b);
      assert sa[..|sa| - 1] == Decimal(a / 10);
      assert sb[..|sb| - 1] == Decimal(b / 10);
      DecimalInjective(a / 10, b / 10);
      assert Digit(a % 10) == sa[|sa| - 1] == sb[|sb| - 1] == Digit(b % 10);
    }
  }

  /** The name given to the anchor placed by call number `count`. */
  function AnchorName(count: nat): (r: string)
    ensures |r| >= 5 && r[..4] == "id: "
  {
    "id: " + Decimal(count)
  }

  lemma AnchorNameInjective(a: nat, b: nat)
    requires AnchorName(a) == AnchorName(b)
    ensures a == b
  {
    assert AnchorName(a)[4..] == Decimal(a);
    assert AnchorName(b)[4..] == Decimal(b);
    DecimalInjective(a, b);
  }

  /** The number of the last call, among the first `count`, that wrote pool
      entry `slot`: the one call in the last 20 whose number is congruent
      to `slot`. */
  function SlotWriter(slot: nat, count: nat): (w: nat)
    requires slot < MaxVirtualObjects && slot < count
    ensures w < count <= w + MaxVirtualObjects
    ensures w % MaxVirtualObjects == slot
  {
    slot + MaxVirtualObjects * ((count - 1 - slot) / MaxVirtualObjects)
  }

  /** Two call numbers in one window of 20 that write the same slot are equal. */
  lemma SameSlotInWindow(a: nat, b: nat)
    requires a % MaxVirtualObjects == b % MaxVirtualObjects
    requires a < b + MaxVirtualObjects && b < a + MaxVirtualObjects
    ensures a == b
  {
    var qa, qb := a / MaxVirtualObjects, b / MaxVirtualObjects;
    assert a == MaxVirtualObjects * qa + a % MaxVirtualObjects;
    assert b == MaxVirtualObjects * qb + b % MaxVirtualObjects;
    assert qa == qb;
  }

  /** Call number `count` writes slot `count % 20`; every other slot keeps its writer. */
  lemma SlotWriterStep(slot: nat, count: nat)
    requires slot < MaxVirtualObjects && slot < count + 1
    ensures slot == count % MaxVirtualObjects ==> SlotWriter(slot, count + 1) == count
    ensures slot != count % MaxVirtualObjects ==>
              slot < count && SlotWriter(slot, count + 1) == SlotWriter(slot, count)
  {
    var w := SlotWriter(slot, count + 1);
    if slot == count % MaxVirtualObjects {
      SameSlotInWindow(w, count);
    } else {
      assert count < MaxVirtualObjects ==> count % MaxVirtualObjects == count;
      assert w != count;
      SameSlotInWindow(w, SlotWriter(slot, count));
    }
  }

  function Min(a: nat, b: nat): nat {
    if a < b then a else b
  }

  /** The pool after `count` calls: one entry per call until there are 20,
      and each entry named after the last call that wrote it. */
  ghost predicate PoolInvariant(pool: seq<Anchor>, count: nat): (b: bool)
    ensures b ==> |pool| <= MaxVirtualObjects && |pool| <= count
  {
    && |pool| == Min(count, MaxVirtualObjects)
    && forall i :: 0 <= i < |pool| ==> pool[i].name == AnchorName(SlotWriter(i, count))
  }

  /** The pool after call number `count` with the hit pose `pose`; `created`
      is the anchor the AR SDK makes when the pool is not yet full. */
  function PoolAfterAdd(pool: seq<Anchor>, count: nat, pose: Pose, created: nat): (r: seq<Anchor>)
    requires count >= MaxVirtualObjects ==> |pool| > 0
    ensures |r| == if count < MaxVirtualObjects then |pool| + 1 else |pool|
    ensures var k := if count < MaxVirtualObjects then |pool| else count % |pool|;
              && r[k].name == AnchorName(count) && r[k].pose == pose
              && (count < MaxVirtualObjects ==> r[k].handle == created)
              && forall i :: 0 <= i < |pool| && i != k ==> r[i] == pool[i]
  {
    if count < MaxVirtualObjects then
      pool + [Anchor(created, AnchorName(count), pose)]
    else
      var k := count % |pool|;
      pool[k := pool[k].(name := AnchorName(count), pose := pose)]
  }

  /** Each call keeps the pool invariant, with the count one higher. */
  lemma PoolAfterAddKeepsInvariant(pool: seq<Anchor>, count: nat, pose: Pose, created: nat)
    requires PoolInvariant(pool, count)
    ensures count >= MaxVirtualObjects ==> |pool| == MaxVirtualObjects
    ensures PoolInvariant(PoolAfterAdd(pool, count, pose, created), count + 1)
  {
    var next := PoolAfterAdd(pool, count, pose, created);
    assert |next| == Min(count + 1, MaxVirtualObjects);
    forall i | 0 <= i < |next|
      ensures next[i].name == AnchorName(SlotWriter(i, count + 1))
    {
      SlotWriterStep(i, count);
      if i == count % MaxVirtualObjects {
        assert next[i].name == AnchorName(count);
      } else {
        assert next[i] == pool[i];
      }
    }
  }

  /** No two anchors of the pool carry the same name. */
  lemma PoolNamesDistinct(pool: seq<Anchor>, count: nat, i: nat, j: nat)
    requires PoolInvariant(pool, count)
    requires i < j < |pool|
    ensures pool[i].name != pool[j].name
  {
    if pool[i].name == pool[j].name {
      AnchorNameInjective(SlotWriter(i, count), SlotWriter(j, count));
      assert false;
    }
  }

  /** The part of ARMain that the sample's touch handling updates. */
  class ARMain {
    var virtualObjects: seq<Anchor>
    var virtObjCount: nat

    ghost predicate Valid()
      reads this
    {
      PoolInvariant(virtualObjects, virtObjCount)
    }

    constructor ()
      ensures Valid() && virtualObjects == [] && virtObjCount == 0
    {
      virtualObjects := [];
      virtObjCount := 0;
    }

    /** Below the cap the new anchor `created` (made at `pose`) is appended;
        from then on the entry at `count % size` is moved to `pose`. Either
        way the chosen anchor is named after the old count and the count
        goes up by one. */
    method AddVirtualObject(pose: Pose, created: nat)
      requires Valid()
      modifies this
      ensures Valid()
      ensures virtObjCount == old(virtObjCount) + 1
      ensures virtualObjects == PoolAfterAdd(old(virtualObjects), old(virtObjCount), pose, created)
    {
      PoolAfterAddKeepsInvariant(virtualObjects, virtObjCount, pose, created);
      var index: nat;
      if virtObjCount < MaxVirtualObjects {
        // createAnchor(pose, andy), added to the scene and to the pool
        virtualObjects := virtualObjects + [Anchor(created, "", pose)];
        index := |virtualObjects| - 1;
      } else {
        index := virtObjCount % |virtualObjects|;
        // updateAnchorPose(anchor, pose)
        virtualObjects := virtualObjects[index := virtualObjects[index].(pose := pose)];
      }
      // anchor.setName(...) renames the pool entry the anchor variable refers to
      virtualObjects := virtualObjects[index := virtualObjects[index].(name := AnchorName(virtObjCount))];
      virtObjCount := virtObjCount + 1;
    }
  }

  /** The callbacks the handler makes on the VirtualObject under the pointer. */
  datatype Callback =
    | PickEnter(node: Node)
    | PickExit(node: Node)
    | TouchStart(node: Node)
    | TouchEnd(node: Node)

  class TouchHandler {
    const main: ARMain
    /** The AR pass-through object (the camera image behind the scene). */
    const passThrough: Node
    var draggingObject: Option<Node>

    /** The pass-through object is never dragged. */
    ghost predicate Valid()
      reads this
    {
      draggingObject != Some(passThrough)
    }

    constructor (main: ARMain, passThrough: Node)
      ensures Valid()
      ensures this.main == main && this.passThrough == passThrough && draggingObject == None
    {
      this.main := main;
      this.passThrough := passThrough;
      draggingObject := None;
    }

    /** A virtual object under the pointer is told so, unless something is being dragged. */
    method OnEnter(sceneObj: Node) returns (calls: seq<Callback>)
      ensures sceneObj == passThrough || draggingObject.Some? ==> calls == []
      ensures sceneObj != passThrough && draggingObject.None? ==> calls == [PickEnter(sceneObj)]
    {
      if sceneObj == passThrough || draggingObject.Some? {
        return [];
      }
      calls := [PickEnter(sceneObj)];
    }

    /** Leaving the pass-through object ends any drag, after telling the
        dragged object; leaving another node tells it only when nothing is
        being dragged. */
    method OnExit(sceneObj: Node) returns (calls: seq<Callback>)
      requires Valid()
      modifies this`draggingObject
      ensures Valid()
      ensures sceneObj == passThrough ==>
                draggingObject == None &&
                calls == (if old(draggingObject).Some? then [PickExit(old(draggingObject).value)] else [])
      ensures sceneObj != passThrough ==>
                draggingObject == old(draggingObject) &&
                calls == (if old(draggingObject).None? then [PickExit(sceneObj)] else [])
    {
      if sceneObj == passThrough {
        calls := [];
        if draggingObject.Some? {
          calls := [PickExit(draggingObject.value)];
          draggingObject := None;
        }
        return;
      }
      calls := [];
      if draggingObject.None? {
        calls := [PickExit(sceneObj)];
      }
    }

    /** Touching a virtual object while nothing is dragged starts dragging it. */
    method OnTouchStart(sceneObj: Node) returns (calls: seq<Callback>)
      requires Valid()
      modifies this`draggingObject
      ensures Valid()
      ensures sceneObj == passThrough || old(draggingObject).Some? ==>
                draggingObject == old(draggingObject) && calls == []
      ensures sceneObj != passThrough && old(draggingObject).None? ==>
                draggingObject == Some(sceneObj) && calls == [TouchStart(sceneObj)]
    {
      if sceneObj == passThrough {
        return [];
      }
      calls := [];
      if draggingObject.None? {
        draggingObject := Some(sceneObj);
        calls := [TouchStart(sceneObj)];
      }
    }

    /** Ends any drag: the dragged object gets touch-end when the pointer
        still picks it (`stillPicked`) and pick-exit otherwise. With nothing
        dragged, releasing on the pass-through object is a single tap. */
    method OnTouchEnd(sceneObj: Node, stillPicked: bool, hit: Option<Pose>, created: nat)
      returns (calls: seq<Callback>, tapped: bool)
      requires Valid() && main.Valid()
      modifies this`draggingObject, main
      ensures Valid() && main.Valid()
      ensures draggingObject == None
      ensures tapped <==> old(draggingObject).None? && sceneObj == passThrough
      ensures old(draggingObject).Some? ==>
                calls == [if stillPicked then TouchEnd(old(draggingObject).value)
                          else PickExit(old(draggingObject).value)]
      ensures old(draggingObject).None? ==> calls == []
      ensures !tapped ==> unchanged(main)
      ensures tapped ==> (hit.None? ==> unchanged(main))
      ensures tapped && hit.Some? ==>
                main.virtObjCount == old(main.virtObjCount) + 1 &&
                main.virtualObjects ==
                  PoolAfterAdd(old(main.virtualObjects), old(main.virtObjCount), hit.value, created)
    {
      calls, tapped := [], false;
      if draggingObject.Some? {
        var dragged := draggingObject.value;
        calls := [if stillPicked then TouchEnd(dragged) else PickExit(dragged)];
        draggingObject := None;
      } else if sceneObj == passThrough {
        OnSingleTap(hit, created);
        tapped := true;
      }
    }

    /** While dragging, the pointer moves the dragged object (rotation,
        scale and anchor pose, outside the model); the state is untouched. */
    method OnInside(sceneObj: Node) returns (moved: Option<Node>)
      ensures moved == draggingObject
    {
      if draggingObject.None? {
        return None;
      }
      moved := draggingObject;
    }

    /** A tap whose hit test found nothing changes nothing; otherwise it
        places (or recycles) an anchor at the hit pose. */
    method OnSingleTap(hit: Option<Pose>, created: nat)
      requires main.Valid()
      modifies main
      ensures main.Valid()
      ensures hit.None? ==> unchanged(main)
      ensures hit.Some? ==>
                main.virtObjCount == old(main.virtObjCount) + 1 &&
                main.virtualObjects ==
                  PoolAfterAdd(old(main.virtualObjects), old(main.virtObjCount), hit.value, created)
    {
      if hit.None? {
        return;
      }
      main.AddVirtualObject(hit.value, created);
    }
  }

  /** Adding `n` objects to a fresh pool leaves min(n, 20) anchors with
      pairwise distinct names. */
  method FillPool(n: nat) returns (size: nat, names: seq<string>)
    ensures size == Min(n, MaxVirtualObjects) && |names| == size
    ensures forall i, j :: 0 <= i < j < |names| ==> names[i] != names[j]
  {
    var main := new ARMain();
    var k := 0;
    while k < n
      invariant 0 <= k <= n
      invariant main.Valid() && main.virtObjCount == k
    {
      main.AddVirtualObject([], k);
      k := k + 1;
    }
    var pool := main.virtualObjects;
    size := |pool|;
    names := seq(size, i requires 0 <= i < size => pool[i].name);
    forall i, j | 0 <= i < j < |names| ensures names[i] != names[j] {
      PoolNamesDistinct(pool, n, i, j);
    }
  }
}
