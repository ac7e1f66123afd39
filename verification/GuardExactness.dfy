/** The delete guard from the other side: which of its refusals the graph needs.

    DeleteGuard shows that what the guard lets go can go.  Here is the converse: removing a row the guard holds back
    would invalidate another row, with three exceptions, and these are all. */
module GuardExactness {
  import opened Model
  import opened Graph
  import opened DeleteGuard
  import opened StoreInvariants

  // ---------------------------------------------------------------- removing what is needed

  /** A strong reference that leads nowhere is never valid. */
  lemma DanglingFails(r: Rules, rows: Rows, id: string, b: Body, t: Key)
    requires Shape(b) && t.id != "" && References(b, t.kind, t.id) && t !in rows
    ensures !Passes(r, rows, id, b)
  {
  }

  lemma ReferencedIsNeeded(r: Rules, rows: Rows, key: Key)
    requires key.id != "" && (forall k :: k in rows ==> Shape(rows[k].body)) && StronglyReferenced(rows, key)
    ensures !AllPass(r, rows - {key})
  {
    var k :| k in rows && k != key && References(rows[k].body, key.kind, key.id);
    DanglingFails(r, rows - {key}, k.id, rows[k].body, key);
    assert k in rows - {key};
  }

  /** The only subnet that serves a floating address. */
  lemma ServingSubnetIsNeeded(r: Rules, rows: Rows, key: Key)
    requires Typed(rows) && SubnetInUse(r, rows, key)
    ensures !AllPass(r, rows - {key})
  {
    var provider := NetworkAt(rows, rows[key].body.networkId).body.providerNetworkId;
    var fip :| fip in rows && fip.kind == KindFloatingIP && rows[fip].body.FloatingIP?
            && rows[fip].body.providerNetworkId == provider
            && r.allocatable(rows[key].body, rows[fip].body.address)
            && !ProviderHasAddress(r, rows, provider, rows[fip].body.address, key.id);
    var after := rows - {key};
    forall k | k in after ensures Offers(r, after, k, provider, rows[fip].body.address) ==> k.id == key.id {
      assert Offers(r, after, k, provider, rows[fip].body.address) ==>
          Offers(r, rows, k, provider, rows[fip].body.address);
    }
    assert !ProviderHasAddress(r, after, provider, rows[fip].body.address, "");
    assert fip in after && !Passes(r, after, fip.id, after[fip].body);
  }

  lemma SingleCarrier(s: set<Key>, key: Key)
    requires key in s && |s| <= 1
    ensures s == {key}
  {
    assert |s - {key}| == 0;
  }

  /** The interface is the one carrier of the route, so without it there is none. */
  lemma CarrierIsNeeded(r: Rules, rows: Rows, key: Key)
    requires CarriesSomeRoute(r, rows, key) && SubnetAt(rows, rows[key].body.subnetId).meta.state != Deleting
    requires RoutesOk(r, rows, rows[key].body.routerId, rows[Key(KindRouter, rows[key].body.routerId)].body)
    ensures !AllPass(r, rows - {key})
  {
    var router := Key(KindRouter, rows[key].body.routerId);
    var b, after := rows[router].body, rows - {key};
    var i :| 0 <= i < |b.routes|
          && OnLink(r, SubnetAt(rows, rows[key].body.subnetId).body, b.routes[i].nextHop);
    var route := b.routes[i];
    assert key in Carriers(r, rows, router.id, route);
    SingleCarrier(Carriers(r, rows, router.id, route), key);
    forall k | k in after ensures !CarriesRoute(r, after, router.id, k, route) {
      assert CarriesRoute(r, after, router.id, k, route) ==> k in Carriers(r, rows, router.id, route);
    }
    assert Carriers(r, after, router.id, route) == {};
    assert !RoutesOk(r, after, router.id, b);
    assert router in after && !Passes(r, after, router.id, after[router].body);
  }

  lemma OnlyPathIsNeeded(r: Rules, rows: Rows, key: Key, fip: Key)
    requires IsOnlyPath(rows, key, fip)
    ensures !AllPass(r, rows - {key})
  {
    var b, after := rows[fip].body, rows - {key};
    var p := rows[Key(KindPort, b.portId)].body.port;
    forall k | k in after && k.kind == KindRouterInterface && after[k].body.RouterInterface?
      && after[k].body.routerId == b.routerId
      ensures !HasFixedIP(p, after[k].body.subnetId, b.fixedIp)
    {
      assert LeadsTo(rows, k, fip) ==> k == key;
    }
    assert !Reaches(after, b.routerId, p, b.fixedIp);
    assert fip in after && !Passes(r, after, fip.id, after[fip].body);
  }

  // ---------------------------------------------------------------- exactness

  /** Interfaces lead to live subnets, as all strong references of a reachable store do. */
  ghost predicate LiveSubnets(rows: Rows) {
    forall k :: k in rows && rows[k].body.RouterInterface? && IsSubnet(rows, rows[k].body.subnetId) ==>
      SubnetAt(rows, rows[k].body.subnetId).meta.state != Deleting
  }

  lemma ReferencesAreLive(r: Rules, rows: Rows)
    requires Invariant(r, rows)
    ensures LiveSubnets(rows)
  {
    forall k | k in rows && rows[k].body.RouterInterface? && IsSubnet(rows, rows[k].body.subnetId)
      ensures SubnetAt(rows, rows[k].body.subnetId).meta.state != Deleting
    {
      assert References(rows[k].body, KindSubnet, rows[k].body.subnetId);
    }
  }

  lemma NeededBreaks(r: Rules, rows: Rows, key: Key)
    requires Typed(rows) && AllPass(r, rows) && (forall k :: k in rows ==> Shape(rows[k].body)) && LiveSubnets(rows)
    requires key in rows && Needed(r, rows, key)
    ensures !AllPass(r, rows - {key})
  {
    if StronglyReferenced(rows, key) {
      ReferencedIsNeeded(r, rows, key);
    } else if SubnetInUse(r, rows, key) {
      ServingSubnetIsNeeded(r, rows, key);
    } else if CarriesSomeRoute(r, rows, key) {
      var router := Key(KindRouter, rows[key].body.routerId);
      assert Passes(r, rows, router.id, rows[router].body);
      CarrierIsNeeded(r, rows, key);
    } else {
      var fip :| IsOnlyPath(rows, key, fip);
      OnlyPathIsNeeded(r, rows, key, fip);
    }
  }

  /** Main result: removing a row keeps every other row valid exactly when no other row needs it. */
  lemma RemovalKeepsGraphIff(r: Rules, rows: Rows, key: Key)
    requires Typed(rows) && AllPass(r, rows) && (forall k :: k in rows ==> Shape(rows[k].body)) && LiveSubnets(rows)
    requires key in rows && key.kind != KindNode
    ensures AllPass(r, rows - {key}) <==> !Needed(r, rows, key)
  {
    if Needed(r, rows, key) {
      NeededBreaks(r, rows, key);
    } else {
      forall k | k in rows && k != key ensures Passes(r, rows - {key}, k.id, rows[k].body) {
        RowAfter(r, rows, rows - {key}, key, k);
      }
    }
  }

  /** The refusals that only caution explains: the last segment of a provider network with networks, an interface that
      is already being deleted, and an interface beside another one on the path of every floating IP it leads to. */
  ghost predicate Overcautious(r: Rules, rows: Rows, key: Key) {
    && !StronglyReferenced(rows, key) && !SubnetInUse(r, rows, key)
    && (|| LastSegmentInUse(rows, key)
        || (&& InterfaceInUse(r, rows, key) && !CarriesSomeRoute(r, rows, key)
            && forall fip :: LeadsTo(rows, key, fip) ==> exists k :: LeadsTo(rows, k, fip) && k != key))
  }

  lemma UnneededRefusal(r: Rules, rows: Rows, key: Key)
    requires InUse(r, rows, key) && !Needed(r, rows, key)
    ensures Overcautious(r, rows, key)
  {
    forall fip | LeadsTo(rows, key, fip) ensures exists k :: LeadsTo(rows, k, fip) && k != key {
      assert !IsOnlyPath(rows, key, fip);
    }
  }

  lemma CautionIsUnneeded(r: Rules, rows: Rows, key: Key)
    requires Overcautious(r, rows, key)
    ensures InUse(r, rows, key) && !Needed(r, rows, key)
  {
    forall fip ensures !IsOnlyPath(rows, key, fip) {
    }
  }

  /** Main result on the guard: it refuses exactly the rows whose removal would invalidate another row, and those it is
      overcautious about. */
  lemma GuardIsExact(r: Rules, rows: Rows, key: Key)
    requires Typed(rows) && AllPass(r, rows) && (forall k :: k in rows ==> Shape(rows[k].body)) && LiveSubnets(rows)
    requires key in rows && key.kind != KindNode
    ensures InUse(r, rows, key) <==> !AllPass(r, rows - {key}) || Overcautious(r, rows, key)
    ensures !(!AllPass(r, rows - {key}) && Overcautious(r, rows, key))
  {
    RemovalKeepsGraphIff(r, rows, key);
    if InUse(r, rows, key) && !Needed(r, rows, key) {
      UnneededRefusal(r, rows, key);
    } else if Overcautious(r, rows, key) {
      CautionIsUnneeded(r, rows, key);
    } else if !InUse(r, rows, key) {
      UnusedIsUnneeded(r, rows, key);
    }
  }
}
