/** The Direct3D shared-resource list: one list of resources that are told when their
    device goes away. A `std::list` iterator names one node and stays valid while
    other nodes are inserted or erased, so each node carries an id that plays the
    iterator's part. */
module D3DShare {

  /** A `D3DSharedResource *` and an `ID3D11Device *` (pointer values, opaque here). */
  type ResourceRef = nat
  type DeviceRef = nat

  /** A list node: the iterator naming it and the resource it holds. */
  datatype ListNode = ListNode(id: nat, resource: ResourceRef)

  /** One call `resource->device_destroyed(device)`. */
  datatype Notification = Notification(resource: ResourceRef, device: DeviceRef)

  /** Some node of `nodes` is named `it`. */
  predicate HasId(nodes: seq<ListNode>, it: nat) {
    exists i :: 0 <= i < |nodes| && nodes[i].id == it
  }

  /** The position of the node named `it`. */
  function IndexOf(nodes: seq<ListNode>, it: nat): (k: nat)
    requires HasId(nodes, it)
    ensures k < |nodes| && nodes[k].id == it
    ensures forall j :: 0 <= j < k ==> nodes[j].id != it
  {
    if nodes[0].id == it then 0
    else
      assert HasId(nodes[1..], it) by {
        var i :| 0 <= i < |nodes| && nodes[i].id == it;
        assert nodes[1..][i - 1].id == it;
      }
      1 + IndexOf(nodes[1..], it)
  }

  /** Node ids are distinct and below `bound`. */
  ghost predicate IdsBelow(nodes: seq<ListNode>, bound: nat) {
    forall i, j :: 0 <= i < |nodes| && 0 <= j < |nodes| ==>
      nodes[i].id < bound && (i != j ==> nodes[i].id != nodes[j].id)
  }

  /** Erasing the node at `k` removes exactly its iterator: every other node keeps
      its iterator, and the ids stay distinct. */
  lemma EraseKeepsOtherIterators(before: seq<ListNode>, k: nat, bound: nat)
    requires k < |before| && IdsBelow(before, bound)
    ensures var after := before[..k] + before[k + 1..];
      && IdsBelow(after, bound)
      && forall j :: HasId(after, j) <==> HasId(before, j) && j != before[k].id
  {
    var after := before[..k] + before[k + 1..];
    assert forall i :: 0 <= i < |after| ==> after[i] == before[if i < k then i else i + 1];
    forall j ensures HasId(after, j) <==> HasId(before, j) && j != before[k].id {
      if HasId(before, j) && j != before[k].id {
        var i :| 0 <= i < |before| && before[i].id == j;
        assert after[if i < k then i else i - 1] == before[i];
      }
    }
  }

  class D3DShareList {
    /** `resources`, in list order. */
    var nodes: seq<ListNode>
    /** The id the next inserted node gets. */
    var nextId: nat

    /** Ids are distinct and below `nextId`. */
    ghost predicate Valid()
      reads this
    {
      IdsBelow(nodes, nextId)
    }

    /** `it` names a node of the list. */
    predicate IsIterator(it: nat)
      reads this
    {
      HasId(nodes, it)
    }

    /** The resources in list order. */
    function Resources(): (rs: seq<ResourceRef>)
      reads this
      ensures |rs| == |nodes| && forall i :: 0 <= i < |nodes| ==> rs[i] == nodes[i].resource
    {
      seq(|nodes|, i requires 0 <= i < |nodes| reads this => nodes[i].resource)
    }

    constructor ()
      ensures Valid() && nodes == []
    {
      nodes := [];
      nextId := 0;
    }

    /** `resource_created`: inserts the resource at the end and returns the iterator
        of the new node; the nodes already there keep their order. */
    method ResourceCreated(resource: ResourceRef) returns (it: nat)
      requires Valid()
      modifies this
      ensures Valid()
      ensures !old(IsIterator(it))
      ensures nodes == old(nodes) + [ListNode(it, resource)]
      ensures Resources() == old(Resources()) + [resource]
    {
      it := nextId;
      nodes := nodes + [ListNode(it, resource)];
      nextId := nextId + 1;
    }

    /** `resource_destroyed(it)`: erases exactly the node `it` names (which must be a
        valid iterator); the others keep their order and their iterators stay valid. */
    method ResourceDestroyed(it: nat)
      requires Valid() && IsIterator(it)
      modifies this`nodes
      ensures Valid()
      ensures var k := IndexOf(old(nodes), it); nodes == old(nodes)[..k] + old(nodes)[k + 1..]
      ensures forall j :: IsIterator(j) <==> old(IsIterator(j)) && j != it
    {
      var k := IndexOf(nodes, it);
      EraseKeepsOtherIterators(nodes, k, nextId);
      nodes := nodes[..k] + nodes[k + 1..];
    }

    /** `device_destroyed(device)`: notifies every resource once, in list order; the
        list is left as it is. */
    method DeviceDestroyed(device: DeviceRef) returns (notified: seq<Notification>)
      ensures |notified| == |nodes|
      ensures forall i :: 0 <= i < |nodes| ==> notified[i] == Notification(nodes[i].resource, device)
    {
      notified := [];
      var i := 0;
      while i < |nodes|
        invariant 0 <= i <= |nodes|
        invariant |notified| == i
        invariant forall j :: 0 <= j < i ==> notified[j] == Notification(nodes[j].resource, device)
      {
        notified := notified + [Notification(nodes[i].resource, device)];
        i := i + 1;
      }
    }
  }
}
