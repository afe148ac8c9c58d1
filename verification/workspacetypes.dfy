/** The two workspace types of an organization, their merge-style update, and the fence that
    their selectors build. */
module WorkspaceTypes {
  import opened Wrappers
  import opened Naming
  import opened Model

  datatype Role = OrgRole | AccountRole

  const LABEL := "core.platform-mesh.io/org"

  function KindOf(t: Role): string {
    match t
    case OrgRole => ORG
    case AccountRole => ACCOUNT
  }

  function RoleName(t: Role, org: string): string {
    TypeName(org, KindOf(t))
  }

  function Ref(t: Role, org: string): TypeRef {
    TypeRef(RoleName(t, org), ORGS_PATH)
  }

  /** The desired type; its foreign field and readiness are those of a fresh object. */
  function Generate(t: Role, org: string): WorkspaceType {
    match t
    case OrgRole =>
      WorkspaceType(map[LABEL := org], [TypeRef("org", "root")], Some(Ref(AccountRole, org)),
                    Some([TypeRef("orgs", "root")]), Some([Ref(AccountRole, org)]), "", false)
    case AccountRole =>
      WorkspaceType(map[LABEL := org], [TypeRef("account", "root")], Some(Ref(AccountRole, org)),
                    Some([Ref(OrgRole, org), Ref(AccountRole, org)]), Some([Ref(AccountRole, org)]),
                    "", false)
  }

  /** The closure that CreateOrPatch runs on the object it got. */
  function Mutate(got: WorkspaceType, desired: WorkspaceType): WorkspaceType {
    got.(labels := got.labels + desired.labels, extend := desired.extend,
         defaultChild := desired.defaultChild, parents := desired.parents, children := desired.children)
  }

  /** A merge patch carries only the fields in which mutated differs from got. */
  function Patch(cur: WorkspaceType, got: WorkspaceType, mutated: WorkspaceType): WorkspaceType {
    cur.(labels := cur.labels + (map l | l in mutated.labels &&
                                   (l !in got.labels || got.labels[l] != mutated.labels[l]) :: mutated.labels[l]),
         extend := if got.extend == mutated.extend then cur.extend else mutated.extend,
         defaultChild := if got.defaultChild == mutated.defaultChild then cur.defaultChild else mutated.defaultChild,
         parents := if got.parents == mutated.parents then cur.parents else mutated.parents,
         children := if got.children == mutated.children then cur.children else mutated.children)
  }

  /** t carries everything the operator manages on this type. */
  predicate Managed(t: WorkspaceType, desired: WorkspaceType) {
    && (forall l :: l in desired.labels ==> l in t.labels && t.labels[l] == desired.labels[l])
    && t.extend == desired.extend && t.defaultChild == desired.defaultChild
    && t.parents == desired.parents && t.children == desired.children
  }

  /** Both types of the organization are there, with everything the operator manages on them. */
  predicate BothManaged(types: map<string, WorkspaceType>, org: string) {
    forall t :: RoleName(t, org) in types && Managed(types[RoleName(t, org)], Generate(t, org))
  }

  /** Without interference a patch is the mutation; it makes the object managed, touches neither
      foreign fields, nor readiness, nor other labels, and does nothing the second time. */
  lemma PatchIsMerge(cur: WorkspaceType, desired: WorkspaceType)
    ensures var p := Patch(cur, cur, Mutate(cur, desired));
            && p == Mutate(cur, desired) && Managed(p, desired)
            && p.foreign == cur.foreign && p.ready == cur.ready
            && (forall l :: l in p.labels ==> l in desired.labels || (l in cur.labels && p.labels[l] == cur.labels[l]))
            && (forall l :: l in cur.labels ==> l in p.labels)
            && Mutate(p, desired) == p
    ensures Mutate(cur, desired) == cur <==> Managed(cur, desired)
  {
    var m := Mutate(cur, desired);
    var p := Patch(cur, cur, m);
    assert p.labels == m.labels;
    assert (p.labels + desired.labels) == p.labels;
    if Managed(cur, desired) {
      assert cur.labels + desired.labels == cur.labels;
    }
    if m == cur {
      forall l | l in desired.labels ensures l in cur.labels && cur.labels[l] == desired.labels[l] {
        assert (cur.labels + desired.labels)[l] == desired.labels[l];
      }
    }
  }

  /** With interference between the read and the patch: fields outside the managed ones are
      always those of the object at the time of the patch, and the result is managed exactly
      when whatever the patch leaves out was still as desired. */
  lemma PatchUnderInterference(cur: WorkspaceType, got: WorkspaceType, desired: WorkspaceType)
    ensures var p := Patch(cur, got, Mutate(got, desired));
            && p.foreign == cur.foreign && p.ready == cur.ready
            && (forall l :: l !in desired.labels ==> (l in p.labels <==> l in cur.labels) &&
                                                     (l in p.labels ==> p.labels[l] == cur.labels[l]))
            && (Managed(p, desired) <==>
                && (forall l :: l in desired.labels && l in got.labels && got.labels[l] == desired.labels[l] ==>
                                  l in cur.labels && cur.labels[l] == desired.labels[l])
                && (got.extend == desired.extend ==> cur.extend == desired.extend)
                && (got.defaultChild == desired.defaultChild ==> cur.defaultChild == desired.defaultChild)
                && (got.parents == desired.parents ==> cur.parents == desired.parents)
                && (got.children == desired.children ==> cur.children == desired.children))
  {
    var m := Mutate(got, desired);
    assert forall l :: l in desired.labels ==> l in m.labels && m.labels[l] == desired.labels[l];
    assert forall l :: l in m.labels && l !in desired.labels ==> l in got.labels && m.labels[l] == got.labels[l];
  }

  // ----- the selector fence -----

  /** A selector lets a reference through when it is absent or lists it. */
  predicate Selects(selector: Option<seq<TypeRef>>, ref: TypeRef) {
    selector.None? || ref in selector.value
  }

  /** kcp admits a child workspace when both ends agree. */
  predicate EdgeAllowed(parent: Role, parentOrg: string, child: Role, childOrg: string) {
    && Selects(Generate(parent, parentOrg).children, Ref(child, childOrg))
    && Selects(Generate(child, childOrg).parents, Ref(parent, parentOrg))
  }

  lemma RoleNameInjective(t1: Role, org1: string, t2: Role, org2: string)
    ensures RoleName(t1, org1) == RoleName(t2, org2) <==> t1 == t2 && org1 == org2
  {
    TypeNameInjective(org1, KindOf(t1), org2, KindOf(t2));
  }

  /** An edge between generated types is admitted exactly inside one organization and down to
      its account type; and root:orgs admits every organization's type below it. */
  lemma SelectorFence(parent: Role, parentOrg: string, child: Role, childOrg: string)
    ensures EdgeAllowed(parent, parentOrg, child, childOrg) <==> parentOrg == childOrg && child == AccountRole
    ensures Selects(Generate(child, childOrg).parents, TypeRef("orgs", "root")) <==> child == OrgRole
  {
    RoleNameInjective(child, childOrg, AccountRole, parentOrg);
    RoleNameInjective(parent, parentOrg, OrgRole, childOrg);
    RoleNameInjective(parent, parentOrg, AccountRole, childOrg);
    RoleNameInjective(parent, parentOrg, parent, childOrg);
  }

  /** The whole of a generated type, in literal terms: it extends just the root type of its kind, is
      labelled with its organization and nothing else, is limited to exactly these parents and children,
      and has as its default child the one child that the fence admits. */
  lemma GeneratedShape(t: Role, org: string)
    ensures var (g, kind) := (Generate(t, org), if t == OrgRole then "org" else "account");
            var (orgType, accountType) := (TypeRef(org + "-org", "root:orgs"), TypeRef(org + "-account", "root:orgs"));
            && Ref(t, org) == TypeRef(org + "-" + kind, "root:orgs")
            && g.extend == [TypeRef(kind, "root")] && g.labels == map["core.platform-mesh.io/org" := org]
            && g.foreign == "" && !g.ready
            && (forall r {:trigger Selects(g.children, r)} :: Selects(g.children, r) <==> r == accountType)
            && (forall r {:trigger Selects(g.parents, r)} :: Selects(g.parents, r) <==>
                  if t == OrgRole then r == TypeRef("orgs", "root") else r == orgType || r == accountType)
            && (forall d :: g.defaultChild == Some(Ref(d, org)) <==> EdgeAllowed(t, org, d, org))
  {
    forall d ensures Generate(t, org).defaultChild == Some(Ref(d, org)) <==> EdgeAllowed(t, org, d, org) {
      RoleNameInjective(d, org, AccountRole, org);
      SelectorFence(t, org, d, org);
    }
    assert org + "-" + "org" == org + "-org" && org + "-" + "account" == org + "-account";
  }

  /** A chain of types below root:orgs, parent first; link i is the edge down to its element i. */
  predicate LinkAllowed(chain: seq<(Role, string)>, i: nat)
    requires i < |chain|
  {
    if i == 0 then Selects(Generate(chain[0].0, chain[0].1).parents, TypeRef("orgs", "root"))
    else EdgeAllowed(chain[i - 1].0, chain[i - 1].1, chain[i].0, chain[i].1)
  }

  predicate Admitted(chain: seq<(Role, string)>) {
    forall i :: 0 <= i < |chain| ==> LinkAllowed(chain, i)
  }

  /** The shape of an organization's tree: the organization, then accounts of that organization. */
  predicate OneOrganization(chain: seq<(Role, string)>) {
    forall i :: 0 <= i < |chain| ==> chain[i] == (if i == 0 then OrgRole else AccountRole, chain[0].1)
  }

  lemma {:induction false} AdmittedElement(chain: seq<(Role, string)>, i: nat)
    requires Admitted(chain) && i < |chain|
    ensures chain[i] == (if i == 0 then OrgRole else AccountRole, chain[0].1)
  {
    assert LinkAllowed(chain, i);
    if i == 0 {
      SelectorFence(chain[0].0, chain[0].1, chain[0].0, chain[0].1);
    } else {
      AdmittedElement(chain, i - 1);
      SelectorFence(chain[i - 1].0, chain[i - 1].1, chain[i].0, chain[i].1);
    }
  }

  /** Chains of any depth: admitted exactly when they stay in one organization. */
  lemma FenceAnyDepth(chain: seq<(Role, string)>)
    ensures Admitted(chain) <==> OneOrganization(chain)
  {
    if Admitted(chain) {
      forall i | 0 <= i < |chain|
        ensures chain[i] == (if i == 0 then OrgRole else AccountRole, chain[0].1)
      {
        AdmittedElement(chain, i);
      }
    }
    if OneOrganization(chain) {
      forall i | 0 <= i < |chain| ensures LinkAllowed(chain, i) {
        if i == 0 {
          SelectorFence(chain[0].0, chain[0].1, chain[0].0, chain[0].1);
        } else {
          SelectorFence(chain[i - 1].0, chain[i - 1].1, chain[i].0, chain[i].1);
        }
      }
    }
  }
}
