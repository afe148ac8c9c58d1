/** The generated deep copies, on the heap: a copy has the same value and shares no memory. Go's
    pointers, maps and slices are references, which may be nil; structs held by value are fields,
    or in a slice the objects of an array. */
module DeepCopy {
  import opened Wrappers
  import opened Model

  class LocationRef {
    var value: Location

    constructor (value: Location)
      ensures this.value == value
    {
      this.value := value;
    }
  }

  class StringRef {
    var value: string

    constructor (value: string)
      ensures this.value == value
    {
      this.value := value;
    }
  }

  class ClientMap {
    var entries: map<string, string>

    constructor ()
      ensures entries == map[]
    {
      entries := map[];
    }
  }

  // ----- OIDCInfo -----

  datatype OidcValue = OidcValue(issuer: string, clients: Option<map<string, string>>)

  class OidcInfo {
    var issuer: string
    var clients: ClientMap?

    constructor () {
      issuer, clients := "", null;
    }

    ghost function Reach(): set<object>
      reads this
    {
      {this} + if clients == null then {} else {clients}
    }

    ghost function Value(): OidcValue
      reads this, Reach()
    {
      OidcValue(issuer, if clients == null then None else Some(clients.entries))
    }

    method DeepCopyInto(out: OidcInfo)
      modifies out
      ensures out.Value() == old(Value())
      ensures fresh(out.Reach() - {out})
    {
      var from := clients;
      out.issuer, out.clients := issuer, clients;
      if from != null {
        var to := new ClientMap();
        out.clients := to;
        var rest := from.entries.Keys;
        while rest != {}
          invariant rest <= from.entries.Keys
          invariant to.entries == map k | k in from.entries && k !in rest :: from.entries[k]
          modifies to
          decreases |rest|
        {
          var k :| k in rest;
          to.entries := to.entries[k := from.entries[k]];
          rest := rest - {k};
        }
        assert to.entries == from.entries;
      }
    }
  }

  // ----- AccountInfoSpec -----

  method CopyLocation(from: LocationRef?) returns (to: LocationRef?)
    ensures to == null <==> from == null
    ensures to != null ==> fresh(to) && to.value == from.value
  {
    if from == null {
      return null;
    }
    to := new LocationRef(from.value);
  }

  method CopyOidc(from: OidcInfo?) returns (to: OidcInfo?)
    ensures to == null <==> from == null
    ensures to != null ==> fresh(to.Reach()) && to.Value() == from.Value()
  {
    if from == null {
      return null;
    }
    to := new OidcInfo();
    from.DeepCopyInto(to);
  }

  datatype SpecValue = SpecValue(fga: string, account: Location, parent: Option<Location>,
                                 organization: Location, ca: string, oidc: Option<OidcValue>)

  class AccountInfoSpec {
    var fga: string
    var account: Location
    var parentAccount: LocationRef?
    var organization: Location
    var ca: string
    var oidc: OidcInfo?

    constructor (account: Location, organization: Location)
      ensures parentAccount == null && oidc == null
    {
      fga, ca := "", "";
      this.account, this.organization := account, organization;
      parentAccount, oidc := null, null;
    }

    ghost function Reach(): set<object>
      reads this, oidc
    {
      {this} + (if parentAccount == null then {} else {parentAccount}) + (if oidc == null then {} else oidc.Reach())
    }

    ghost function Value(): SpecValue
      reads this, oidc, Reach()
    {
      SpecValue(fga, account, if parentAccount == null then None else Some(parentAccount.value),
                organization, ca, if oidc == null then None else Some(oidc.Value()))
    }

    method DeepCopyInto(out: AccountInfoSpec)
      modifies out
      ensures out.Value() == old(Value())
      ensures fresh(out.Reach() - {out})
    {
      var parentTo := CopyLocation(parentAccount);
      var oidcTo := CopyOidc(oidc);
      out.fga, out.account, out.parentAccount := fga, account, parentTo;
      out.organization, out.ca, out.oidc := organization, ca, oidcTo;
    }

    method DeepCopy() returns (out: AccountInfoSpec)
      ensures fresh(out.Reach()) && out.Value() == Value()
    {
      out := new AccountInfoSpec(account, organization);
      DeepCopyInto(out);
    }
  }

  /** What v leaves of x when it is written through every pointer that x has. */
  function Overwritten(x: SpecValue, v: SpecValue): SpecValue {
    SpecValue(v.fga, v.account, if x.parent.Some? && v.parent.Some? then v.parent else x.parent, v.organization, v.ca,
              if x.oidc.Some? && v.oidc.Some? then Some(OverwrittenOidc(x.oidc.value, v.oidc.value)) else x.oidc)
  }

  function OverwrittenOidc(x: OidcValue, v: OidcValue): OidcValue {
    OidcValue(v.issuer, if x.clients.Some? && v.clients.Some? then v.clients else x.clients)
  }

  /** Writes in place, to all the memory of a record. */
  method Overwrite(a: AccountInfoSpec, v: SpecValue)
    modifies a.Reach()
    ensures a.Value() == Overwritten(old(a.Value()), v) && a.Reach() == old(a.Reach())
  {
    a.fga, a.account, a.organization, a.ca := v.fga, v.account, v.organization, v.ca;
    if a.parentAccount != null && v.parent.Some? {
      a.parentAccount.value := v.parent.value;
    }
    if a.oidc != null && v.oidc.Some? {
      a.oidc.issuer := v.oidc.value.issuer;
      if a.oidc.clients != null && v.oidc.value.clients.Some? {
        a.oidc.clients.entries := v.oidc.value.clients.value;
      }
    }
  }

  /** A deep copy and its original are separate: whatever is then written in place to the original,
      through all of its pointers, the copy stays as it was taken. */
  method WriteOriginal(a: AccountInfoSpec, v: SpecValue) returns (copy: AccountInfoSpec)
    modifies a.Reach()
    ensures fresh(copy.Reach()) && copy.Value() == old(a.Value())
    ensures a.Value() == Overwritten(old(a.Value()), v)
  {
    hide Overwritten, OidcInfo.Value;
    copy := a.DeepCopy();
    Overwrite(a, v);
  }

  /** And the other way round. */
  method WriteCopy(a: AccountInfoSpec, v: SpecValue) returns (copy: AccountInfoSpec)
    ensures fresh(copy.Reach()) && copy.Value() == Overwritten(a.Value(), v)
    ensures a.Value() == old(a.Value()) && a.Reach() == old(a.Reach())
  {
    copy := a.DeepCopy();
    Overwrite(copy, v);
  }

  /** How CreateOrUpdate decides whether to write: it copies the record it has read, lets the closure
      assign to the record in place, and compares. The closure makes the record share the OIDC object
      of the parent's record; the copy shares nothing, so it still is what was read. */
  method MutateAndCompare(info: AccountInfoSpec, parent: AccountInfoSpec, self: Location, ca: string)
    returns (existing: AccountInfoSpec)
    requires info != parent
    modifies info
    ensures fresh(existing.Reach()) && existing.Value() == old(info.Value())
    ensures parent.Value() == old(parent.Value()) && info.oidc == parent.oidc
    ensures info.Value() ==
            SpecValue(parent.fga, self, Some(parent.account), parent.organization, ca, parent.Value().oidc)
  {
    existing := info.DeepCopy();
    info.account := self;
    info.parentAccount := new LocationRef(parent.account);
    info.organization := parent.organization;
    info.fga := parent.fga;
    info.oidc := parent.oidc;
    info.ca := ca;
  }

  // ----- Extension -----

  method CopyBytes(from: array?<bv8>) returns (to: array?<bv8>)
    ensures to == null <==> from == null
    ensures to != null ==> fresh(to) && to[..] == from[..]
  {
    if from == null {
      return null;
    }
    var copy := new bv8[from.Length];
    forall i | 0 <= i < from.Length {
      copy[i] := from[i];
    }
    return copy;
  }

  method CopyString(from: StringRef?) returns (to: StringRef?)
    ensures to == null <==> from == null
    ensures to != null ==> fresh(to) && to.value == from.value
  {
    if from == null {
      return null;
    }
    to := new StringRef(from.value);
  }

  ghost function Bytes(a: array?<bv8>): Option<seq<bv8>>
    reads a
  {
    if a == null then None else Some(a[..])
  }

  ghost function Text(s: StringRef?): Option<string>
    reads s
  {
    if s == null then None else Some(s.value)
  }

  datatype ExtensionValue = ExtensionValue(typeMeta: string, metadata: Option<seq<bv8>>, spec: Option<seq<bv8>>,
                                           ready: Option<string>)

  class Extension {
    var typeMeta: string
    var metadataGoTemplate: array?<bv8>
    var specGoTemplate: array?<bv8>
    var readyConditionType: StringRef?

    constructor () {
      typeMeta := "";
      metadataGoTemplate, specGoTemplate, readyConditionType := null, null, null;
    }

    ghost function Reach(): set<object>
      reads this
    {
      {this} + (if metadataGoTemplate == null then {} else {metadataGoTemplate}) +
      (if specGoTemplate == null then {} else {specGoTemplate}) +
      (if readyConditionType == null then {} else {readyConditionType})
    }

    ghost function Value(): ExtensionValue
      reads this, metadataGoTemplate, specGoTemplate, readyConditionType
    {
      ExtensionValue(typeMeta, Bytes(metadataGoTemplate), Bytes(specGoTemplate), Text(readyConditionType))
    }

    method DeepCopyInto(out: Extension)
      modifies out
      ensures out.Value() == old(Value())
      ensures fresh(out.Reach() - {out})
    {
      var (metadataFrom, specFrom, readyFrom) := (metadataGoTemplate, specGoTemplate, readyConditionType);
      out.typeMeta := typeMeta;
      out.metadataGoTemplate := CopyBytes(metadataFrom);
      out.specGoTemplate := CopyBytes(specFrom);
      out.readyConditionType := CopyString(readyFrom);
    }

    method DeepCopy() returns (out: Extension)
      ensures fresh(out.Reach()) && out.Value() == Value()
    {
      out := new Extension();
      DeepCopyInto(out);
    }
  }

  // ----- JSON -----

  class Json {
    var raw: array?<bv8>

    constructor () {
      raw := null;
    }

    ghost function Reach(): set<object>
      reads this
    {
      {this} + if raw == null then {} else {raw}
    }

    ghost function Value(): Option<seq<bv8>>
      reads this, raw
    {
      Bytes(raw)
    }

    method DeepCopyInto(out: Json)
      modifies out
      ensures out.Value() == old(Value())
      ensures fresh(out.Reach() - {out})
    {
      out.raw := CopyBytes(raw);
    }
  }

  method CopyJson(from: Json?) returns (to: Json?)
    ensures to == null <==> from == null
    ensures to != null ==> fresh(to.Reach()) && to.Value() == from.Value()
  {
    if from == null {
      return null;
    }
    to := new Json();
    from.DeepCopyInto(to);
  }

  // ----- slices -----

  /** The loop that copies a slice element by element; the new slice is put together at the end. */
  method CopyExtensions(from: array?<Extension>) returns (to: array?<Extension>)
    ensures to == null <==> from == null
    ensures to != null ==> fresh(to) && to.Length == from.Length
    ensures to != null ==> forall i :: 0 <= i < to.Length ==> fresh(to[i].Reach()) && to[i].Value() == from[i].Value()
    ensures to != null ==> forall i, j :: 0 <= i < j < to.Length ==> to[i].Reach() !! to[j].Reach()
    ensures to != null ==> forall i :: 0 <= i < to.Length ==> to !in to[i].Reach()
  {
    if from == null {
      return null;
    }
    var copies: seq<Extension> := [];
    ghost var taken: set<object> := {};
    while |copies| < from.Length
      invariant |copies| <= from.Length
      invariant forall j :: 0 <= j < |copies| ==> fresh(copies[j].Reach()) && copies[j].Value() == from[j].Value()
      invariant fresh(taken) && forall j :: 0 <= j < |copies| ==> copies[j].Reach() <= taken
      invariant forall i, j :: 0 <= i < j < |copies| ==> copies[i].Reach() !! copies[j].Reach()
      decreases from.Length - |copies|
    {
      var element := from[|copies|].DeepCopy();
      copies, taken := copies + [element], taken + element.Reach();
    }
    to := new Extension[|copies|](j requires 0 <= j < |copies| => copies[j]);
  }

  // ----- AccountSpec -----

  /** The memory that these four refer to, without that of the extensions themselves. */
  ghost function Parts(description: StringRef?, creator: StringRef?, extensions: array?<Extension>,
                       data: Json?): set<object>
    reads data
  {
    (if description == null then {} else {description}) + (if creator == null then {} else {creator}) +
    (if extensions == null then {} else {extensions}) + (if data == null then {} else data.Reach())
  }

  class AccountSpec {
    var kind: string
    var displayName: string
    var description: StringRef?
    var creator: StringRef?
    var extensions: array?<Extension>
    var data: Json?

    constructor () {
      kind, displayName := "", "";
      description, creator, extensions, data := null, null, null, null;
    }

    /** The memory of the record itself, without that of its extensions. */
    ghost function Own(): set<object>
      reads this, data
    {
      {this} + Parts(description, creator, extensions, data)
    }

    ghost function Data(): Option<Option<seq<bv8>>>
      reads this, data, if data == null then {} else data.Reach()
    {
      if data == null then None else Some(data.Value())
    }

    method CopyParts()
      returns (descriptionTo: StringRef?, creatorTo: StringRef?, extensionsTo: array?<Extension>, dataTo: Json?)
      ensures Text(descriptionTo) == Text(description) && Text(creatorTo) == Text(creator)
      ensures (if dataTo == null then None else Some(dataTo.Value())) == Data()
      ensures fresh(Parts(descriptionTo, creatorTo, extensionsTo, dataTo)) &&
              (creatorTo != null ==> creatorTo != descriptionTo)
      ensures extensionsTo == null <==> extensions == null
      ensures extensionsTo != null ==> extensionsTo.Length == extensions.Length
      ensures extensionsTo != null ==>
                forall i :: 0 <= i < extensionsTo.Length ==>
                && fresh(extensionsTo[i].Reach()) && extensionsTo[i].Value() == extensions[i].Value()
                && extensionsTo[i].Reach() !! Parts(descriptionTo, creatorTo, extensionsTo, dataTo)
      ensures extensionsTo != null ==>
                forall i, j :: 0 <= i < j < extensionsTo.Length ==> extensionsTo[i].Reach() !! extensionsTo[j].Reach()
    {
      hide Extension.Value, Extension.Reach, Json.Value;
      descriptionTo := CopyString(description);
      creatorTo := CopyString(creator);
      dataTo := CopyJson(data);
      extensionsTo := CopyExtensions(extensions);
    }

    method DeepCopyInto(out: AccountSpec)
      modifies out
      ensures out.kind == old(kind) && out.displayName == old(displayName) && out.Data() == old(Data())
      ensures Text(out.description) == old(Text(description)) && Text(out.creator) == old(Text(creator))
      ensures out.extensions == null <==> old(extensions) == null
      ensures out.extensions != null ==> out.extensions.Length == old(extensions).Length
      ensures fresh(out.Own() - {out}) && (out.creator != null ==> out.creator != out.description)
      ensures out.extensions != null ==>
                forall i :: 0 <= i < out.extensions.Length ==>
                  && fresh(out.extensions[i].Reach()) && out.extensions[i].Reach() !! out.Own()
                  && out.extensions[i].Value() == old(extensions[i].Value())
      ensures out.extensions != null ==>
                forall i, j :: 0 <= i < j < out.extensions.Length ==>
                  out.extensions[i].Reach() !! out.extensions[j].Reach()
    {
      hide Extension.Value, Extension.Reach, Json.Value, Parts;
      var descriptionTo, creatorTo, extensionsTo, dataTo := CopyParts();
      out.kind, out.displayName, out.data := kind, displayName, dataTo;
      out.description, out.creator, out.extensions := descriptionTo, creatorTo, extensionsTo;
    }
  }
}
