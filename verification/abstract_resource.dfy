/** The map-backed resource of abstract_resource.go: a store of named
    resources, each a permissions table from joined action paths to access
    levels, plus a context and an owner set through setters. */
module AbstractResources {
  import opened Wrappers
  import opened Names
  import opened Levels
  import opened Priv

  /** The level a permissions table gives an action path: the entry under the
      `_`-joined path, `NotSupport` when there is none (abstract_resource.go:75-81). */
  function LevelOf(levels: map<string, AccessLevel>, action: seq<string>): AccessLevel {
    var key := Join(action, "_");
    if key in levels then levels[key] else NotSupport
  }

  /** A level written for an action path is what that path reads back. */
  lemma SetThenGet(levels: map<string, AccessLevel>, l: AccessLevel, action: seq<string>)
    ensures LevelOf(levels[Join(action, "_") := l], action) == l
  {
  }

  /** A write under one joined path leaves every other path's level as it
      was, and a second write to the same path replaces the first. */
  lemma SetFrame(levels: map<string, AccessLevel>, l: AccessLevel, action: seq<string>, other: seq<string>, l2: AccessLevel)
    ensures Join(other, "_") != Join(action, "_") ==>
              LevelOf(levels[Join(action, "_") := l], other) == LevelOf(levels, other)
    ensures LevelOf(levels[Join(action, "_") := l][Join(action, "_") := l2], action) == l2
  {
  }

  /** A path never written reads `NotSupport`, whatever else the table holds. */
  lemma UnsetIsNotSupport(levels: map<string, AccessLevel>, action: seq<string>)
    requires Join(action, "_") !in levels
    ensures LevelOf(levels, action) == NotSupport
  {
  }

  /** A table sees an action path only through its `_`-join: two paths with
      the same join read the same level, and a write under one is read under
      the other. */
  lemma SegmentationInvisibleLevels(levels: map<string, AccessLevel>, a1: seq<string>, a2: seq<string>, l: AccessLevel)
    requires Join(a1, "_") == Join(a2, "_")
    ensures LevelOf(levels, a1) == LevelOf(levels, a2)
    ensures LevelOf(levels[Join(a1, "_") := l], a2) == l
  {
  }

  /** Segments are joined with `_`, so the path ["create", "admin"] and the
      single segment "create_admin" share one entry. */
  lemma JoinCollision(levels: map<string, AccessLevel>, l: AccessLevel)
    ensures LevelOf(levels[Join(["create", "admin"], "_") := l], ["create_admin"]) == l
  {
    JoinedActions();
    SegmentationInvisibleLevels(levels, ["create", "admin"], ["create_admin"], l);
  }

  /** The Resource an `AbstractResourceDetails` is: a simple resource whose
      Permission is its table's lookup. */
  function Details(levels: map<string, AccessLevel>, context: Value, owner: Value): Resource {
    Resource(Object("AbstractResourceDetails", None, ""), context, owner, Simple((a: seq<string>) => LevelOf(levels, a)))
  }

  /** An action never set on an abstract resource is refused to every
      subject holding a recommended privilege, the anonymous one included,
      unless the resource is misconfigured with its owner as context. */
  lemma UnsetActionDenied(levels: map<string, AccessLevel>, context: Value, owner: Value, subject: Option<Subject>, action: seq<string>)
    requires Join(action, "_") !in levels
    requires !(context == owner && owner != Nil)
    requires subject.Some? ==> subject.value.relation(owner, context) in RecommendedPrivileges
    ensures Decide(subject, action, Details(levels, context, owner)) == PermissionDenied
  {
    RecommendedScales();
  }

  /** The permissions map of a details value. A Go map is a reference, so the
      copies of one details value share it: it is an object of its own. */
  class PermissionTable {
    var levels: map<string, AccessLevel>

    /** `make(map[string]AccessLevel)`. */
    constructor ()
      ensures levels == map[]
    {
      levels := map[];
    }
  }

  /** `AbstractResourceDetails` (abstract_resource.go:43-47): the shared
      permissions table and the details' own context and owner. */
  class ResourceDetails {
    const permissions: PermissionTable
    var context: Value
    var owner: Value

    /** A copy of a stored details value: the table is shared, and the
        context and owner are nil, as no setter ever reaches the stored value. */
    constructor Copy(table: PermissionTable)
      ensures permissions == table && context == Nil && owner == Nil
    {
      permissions := table;
      context := Nil;
      owner := Nil;
    }

    /** `SetContext` (abstract_resource.go:50-52). */
    method SetContext(c: Value)
      modifies this
      ensures context == c && owner == old(owner)
    {
      context := c;
    }

    /** `SetOwner` (abstract_resource.go:55-57). */
    method SetOwner(o: Value)
      modifies this
      ensures owner == o && context == old(context)
    {
      owner := o;
    }

    /** `SetPermission` (abstract_resource.go:60-62): writes the level under
        the `_`-joined action path, in the table every copy shares. */
    method SetPermission(l: AccessLevel, action: seq<string>)
      modifies permissions
      ensures permissions.levels == old(permissions.levels)[Join(action, "_") := l]
      ensures Permission(action) == l
      ensures forall other :: Join(other, "_") != Join(action, "_") ==>
                Permission(other) == old(Permission(other))
    {
      permissions.levels := permissions.levels[Join(action, "_") := l];
    }

    /** `Context` (abstract_resource.go:65-67). */
    function Context(): Value
      reads this
    {
      context
    }

    /** `Owner` (abstract_resource.go:70-72). */
    function Owner(): Value
      reads this
    {
      owner
    }

    /** `Permission` (abstract_resource.go:75-81). */
    function Permission(action: seq<string>): AccessLevel
      reads this, permissions
    {
      LevelOf(permissions.levels, action)
    }

    /** These details seen as a Resource by `On`. */
    function AsResource(): Resource
      reads this, permissions
    {
      Details(permissions.levels, context, owner)
    }
  }

  /** `abstractResourceStore` (abstract_resource.go:28): the permissions table
      of every abstract resource created so far, by name. */
  class ResourceStore {
    var entries: map<string, PermissionTable>

    constructor ()
      ensures entries == map[]
    {
      entries := map[];
    }

    /** `AbstractResource` (abstract_resource.go:32-40): creates an empty
        table for a new name, keeps the one of a known name, and returns a
        fresh copy of the details sharing that table. */
    method AbstractResource(name: string) returns (d: ResourceDetails)
      modifies this
      ensures name in entries
      ensures name in old(entries) ==> entries == old(entries)
      ensures name !in old(entries) ==>
                fresh(entries[name]) && entries[name].levels == map[] &&
                entries == old(entries)[name := entries[name]]
      ensures fresh(d) && d.permissions == entries[name] && d.context == Nil && d.owner == Nil
    {
      if name !in entries {
        var table := new PermissionTable();
        entries := entries[name := table];
      }
      d := new ResourceDetails.Copy(entries[name]);
    }
  }

  /** Two handles on one name share the table: a level set through the
      first is read through the second, while the second's context stays
      its own. */
  method SharedTableExample() returns (level: AccessLevel, other: AccessLevel, context: Value)
    ensures level == HighSecret && other == NotSupport && context == Nil
  {
    var store := new ResourceStore();
    var first := store.AbstractResource("post");
    first.SetContext(StringValue("group"));
    first.SetPermission(HighSecret, ["update"]);
    var second := store.AbstractResource("post");
    level := second.Permission(["update"]);
    assert Join(["read"], "_") == "read";
    other := second.Permission(["read"]);
    context := second.Context();
  }
}
