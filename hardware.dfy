/**
 * The hardware object model: a module created by the vendor owns the host
 * and network interfaces that its constructor creates, in index order.
 */
module Hardware {
  import opened TaiTypes

  /**
   * create_hostif / create_netif: create interfaces 0 .. num-1 of `owner`
   * through `create`, each with its index attribute set to its position,
   * and collect the handles in creation order.  `ok` is false when a
   * creation failed, where the source throws.
   */
  method CreateInterfaces(create: (Handle, nat) -> Reply, owner: Handle, num: nat)
    returns (ok: bool, handles: seq<Handle>)
    ensures ok <==> forall i :: 0 <= i < num ==> create(owner, i).status == Success
    ensures ok ==> |handles| == num
    ensures ok ==> forall i :: 0 <= i < num ==> handles[i] == create(owner, i).handle
  {
    handles := [];
    var i := 0;
    while i < num
      invariant 0 <= i <= num
      invariant |handles| == i
      invariant forall k :: 0 <= k < i ==> create(owner, k).status == Success
      invariant forall k :: 0 <= k < i ==> handles[k] == create(owner, k).handle
    {
      var reply := create(owner, i);
      if reply.status != Success {
        return false, handles;
      }
      handles := handles + [reply.handle];
      i := i + 1;
    }
    ok := true;
  }

  /** The vendor answers every call by which the constructor builds module `id`. */
  predicate Builds(v: Vendor, id: Handle)
  {
    var c := v.getModuleCounts(id);
    && c.status == Success
    && (forall i :: 0 <= i < c.numHostifs ==> v.createHostif(id, i).status == Success)
    && (forall i :: 0 <= i < c.numNetifs ==> v.createNetif(id, i).status == Success)
  }

  class Module {
    const id: Handle
    const hostifs: seq<Handle>
    const netifs: seq<Handle>
    /** False when the constructor threw: no caller ever holds such an object. */
    const complete: bool

    /** The interface lists are exactly those the vendor reported and created. */
    predicate BuiltBy(v: Vendor)
    {
      var c := v.getModuleCounts(id);
      && |hostifs| == c.numHostifs
      && |netifs| == c.numNetifs
      && (forall i :: 0 <= i < |hostifs| ==> hostifs[i] == v.createHostif(id, i).handle)
      && (forall i :: 0 <= i < |netifs| ==> netifs[i] == v.createNetif(id, i).handle)
    }

    /**
     * module(id): read the two interface counts, then create the host
     * interfaces and the network interfaces.
     */
    constructor (v: Vendor, id: Handle)
      ensures this.id == id
      ensures complete <==> Builds(v, id)
      ensures complete ==> BuiltBy(v)
    {
      this.id := id;
      var counts := v.getModuleCounts(id);
      var okH, hs := CreateInterfaces(v.createHostif, id, if counts.status == Success then counts.numHostifs else 0);
      var okN, ns := CreateInterfaces(v.createNetif, id, if counts.status == Success && okH then counts.numNetifs else 0);
      hostifs := hs;
      netifs := ns;
      complete := counts.status == Success && okH && okN;
    }

    /** Every network interface of the module accepts the attribute value. */
    predicate Accepts(v: Vendor, attr: AttrId, value: AttrValue)
    {
      forall j :: 0 <= j < |netifs| ==> v.setNetifAttr(netifs[j], attr, value) == Success
    }

    /**
     * `calls` writes (attr, value) to the network interfaces in creation
     * order, every call but the last succeeding: all of them when `ok`, and
     * otherwise up to and including the first interface that fails.
     */
    predicate WriteTrace(v: Vendor, attr: AttrId, value: AttrValue, calls: seq<VendorCall>, ok: bool)
    {
      && |calls| <= |netifs|
      && (forall j :: 0 <= j < |calls| ==> calls[j] == SetNetifAttrCall(netifs[j], attr, value))
      && (forall j :: 0 <= j < |calls| - 1 ==> v.setNetifAttr(netifs[j], attr, value) == Success)
      && (ok ==> |calls| == |netifs|)
      && (!ok ==> calls != [] && v.setNetifAttr(netifs[|calls| - 1], attr, value) != Success)
    }

    /**
     * set_netif_attribute: send (attr, value) to every network interface in
     * creation order.  `calls` are the vendor calls made; the first failure
     * stops the loop (the source throws) and earlier interfaces keep the new
     * value.
     */
    method SetNetifAttribute(v: Vendor, attr: AttrId, value: AttrValue)
      returns (ok: bool, calls: seq<VendorCall>)
      ensures ok <==> Accepts(v, attr, value)
      ensures WriteTrace(v, attr, value, calls, ok)
    {
      calls := [];
      var i := 0;
      while i < |netifs|
        invariant 0 <= i <= |netifs|
        invariant |calls| == i
        invariant forall j :: 0 <= j < i ==> calls[j] == SetNetifAttrCall(netifs[j], attr, value)
        invariant forall j :: 0 <= j < i ==> v.setNetifAttr(netifs[j], attr, value) == Success
      {
        calls := calls + [SetNetifAttrCall(netifs[i], attr, value)];
        if v.setNetifAttr(netifs[i], attr, value) != Success {
          return false, calls;
        }
        i := i + 1;
      }
      ok := true;
    }
  }
}
