/**
 The identity root: `identity_root` of proofrail/control_plane.py.
 */
module Identity {
  import opened Hashing
  import opened Sorting
  import opened Rbac

  /** The principals of a tenant. */
  function Principals(tenant: string, roles: map<Ref, Json>): set<string> {
    set r | r in roles && r.tenant == tenant :: r.id
  }

  function PrincipalRow(id: string, role: Json): Json {
    Obj(map[PrincipalId := Str(id), Role := role])
  }

  /** `SELECT principal_id, role ... ORDER BY principal_id` */
  function PrincipalRows(tenant: string, roles: map<Ref, Json>): seq<Json> {
    var ids := InOrder(Principals(tenant, roles));
    seq(|ids|, i requires 0 <= i < |ids| =>
      assert ids[i] in Elements(ids);
      PrincipalRow(ids[i], roles[Ref(tenant, ids[i])]))
  }

  function IdentityDocument(tenant: string, roles: map<Ref, Json>): Record {
    map[
      Kind := Fixed(IdentityRootKind),
      TenantId := Str(tenant),
      Field.Other("principals") := Arr(PrincipalRows(tenant, roles))]
  }

  function IdentityInput(s: Suite, tenant: string, roles: map<Ref, Json>): Bytes {
    DocumentInput(s, IdentityDocument(tenant, roles))
  }

  /** `identity_root` */
  function IdentityRoot(s: Suite, tenant: string, roles: map<Ref, Json>): string {
    DigestDocument(s, IdentityDocument(tenant, roles))
  }

  /** The tenant has the same principals with the same roles. */
  ghost predicate SameRoles(tenant: string, a: map<Ref, Json>, b: map<Ref, Json>) {
    forall id :: (Ref(tenant, id) in a <==> Ref(tenant, id) in b) && (Ref(tenant, id) in a ==> a[Ref(tenant, id)] == b[Ref(tenant, id)])
  }

  lemma RowsContain(tenant: string, a: map<Ref, Json>, b: map<Ref, Json>, id: string)
    requires PrincipalRows(tenant, a) == PrincipalRows(tenant, b) && Ref(tenant, id) in a
    ensures Ref(tenant, id) in b && b[Ref(tenant, id)] == a[Ref(tenant, id)]
  {
    var ids, others := InOrder(Principals(tenant, a)), InOrder(Principals(tenant, b));
    assert |ids| == |PrincipalRows(tenant, a)| == |others|;
    assert id in Principals(tenant, a);
    assert id in Elements(ids);
    var i :| 0 <= i < |ids| && ids[i] == id;
    assert others[i] in Elements(others);
    assert PrincipalRows(tenant, a)[i] == PrincipalRows(tenant, b)[i];
    SameRow(id, a[Ref(tenant, id)], others[i], b[Ref(tenant, others[i])]);
  }

  lemma SameRow(id: string, role: Json, other: string, otherRole: Json)
    requires PrincipalRow(id, role) == PrincipalRow(other, otherRole)
    ensures id == other && role == otherRole
  {
    assert PrincipalRow(id, role).fields[PrincipalId] == PrincipalRow(other, otherRole).fields[PrincipalId];
    assert PrincipalRow(id, role).fields[Role] == PrincipalRow(other, otherRole).fields[Role];
  }

  lemma SameRolesSameRows(tenant: string, a: map<Ref, Json>, b: map<Ref, Json>)
    requires SameRoles(tenant, a, b)
    ensures PrincipalRows(tenant, a) == PrincipalRows(tenant, b)
  {
    forall id ensures id in Principals(tenant, a) <==> id in Principals(tenant, b) {
      assert id in Principals(tenant, a) <==> Ref(tenant, id) in a;
      assert id in Principals(tenant, b) <==> Ref(tenant, id) in b;
    }
    assert Principals(tenant, a) == Principals(tenant, b);
    var ids := InOrder(Principals(tenant, a));
    forall i | 0 <= i < |ids| ensures PrincipalRows(tenant, a)[i] == PrincipalRows(tenant, b)[i] {
      assert ids[i] in Elements(ids);
    }
  }

  lemma SameDocumentSameRoles(s: Suite, tenant: string, other: string, a: map<Ref, Json>, b: map<Ref, Json>)
    requires s.Valid() && IdentityInput(s, tenant, a) == IdentityInput(s, other, b)
    ensures tenant == other && SameRoles(tenant, a, b)
  {
    hide PrincipalRows;
    var x, y := IdentityDocument(tenant, a), IdentityDocument(other, b);
    assert Unsigned(x) == x && Unsigned(y) == y;
    assert x[TenantId] == y[TenantId] && x[Field.Other("principals")] == y[Field.Other("principals")];
    forall id
      ensures Ref(tenant, id) in a <==> Ref(tenant, id) in b
      ensures Ref(tenant, id) in a ==> a[Ref(tenant, id)] == b[Ref(tenant, id)]
    {
      if Ref(tenant, id) in a { RowsContain(tenant, a, b, id); }
      if Ref(tenant, id) in b { RowsContain(tenant, b, a, id); }
    }
  }

  /** Two identity roots are equal exactly for the same tenant with the same principals
      in the same roles. */
  lemma IdentityRootFixesRoles(s: Suite, tenant: string, other: string, a: map<Ref, Json>, b: map<Ref, Json>)
    requires s.Valid() && CollisionFree(s, {IdentityInput(s, tenant, a), IdentityInput(s, other, b)})
    ensures IdentityRoot(s, tenant, a) == IdentityRoot(s, other, b) <==> tenant == other && SameRoles(tenant, a, b)
  {
    hide IdentityInput, SameRoles, IdentityDocument;
    if IdentityRoot(s, tenant, a) == IdentityRoot(s, other, b) {
      assert IdentityInput(s, tenant, a) == IdentityInput(s, other, b) by {
        SameRootSameInput(s, tenant, other, a, b);
      }
      SameDocumentSameRoles(s, tenant, other, a, b);
    }
    if tenant == other && SameRoles(tenant, a, b) {
      SameRolesSameRows(tenant, a, b);
      SameRowsSameDocument(tenant, a, b);
    }
  }

  lemma SameRowsSameDocument(tenant: string, a: map<Ref, Json>, b: map<Ref, Json>)
    requires PrincipalRows(tenant, a) == PrincipalRows(tenant, b)
    ensures IdentityDocument(tenant, a) == IdentityDocument(tenant, b)
  {
  }

  lemma SameRootSameInput(s: Suite, tenant: string, other: string, a: map<Ref, Json>, b: map<Ref, Json>)
    requires CollisionFree(s, {IdentityInput(s, tenant, a), IdentityInput(s, other, b)})
    requires IdentityRoot(s, tenant, a) == IdentityRoot(s, other, b)
    ensures IdentityInput(s, tenant, a) == IdentityInput(s, other, b)
  {
    hide IdentityDocument;
    SameDigestSameInput(s, {IdentityInput(s, tenant, a), IdentityInput(s, other, b)}, IdentityInput(s, tenant, a), IdentityInput(s, other, b));
  }
}
