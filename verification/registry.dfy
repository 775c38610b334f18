/** The relation registry of const.go: a default vocabulary valid in every
    context, and a two-level table from context name to lower-cased relation
    label to privilege, written by `AddRelation` and read by `getPrivilege`.
    The process-global `relationMap` becomes a RelationRegistry object. */
module Registry {
  import opened Wrappers
  import opened Levels
  import opened Names

  /** The two panics of `getPrivilege` (const.go:104, 106). */
  datatype RegistryError = UnknownContext | UnknownRelation

  /** Relation label to privilege. */
  type Vocabulary = map<string, Privilege>

  /** Context name to that context's vocabulary (const.go:75). */
  type Contexts = map<string, Vocabulary>

  /** `defaultRelation` (const.go:60-72): every recommended privilege under
      its lower-case name. */
  const DefaultRelation: Vocabulary := map[
    "badrelation" := BadRelation,
    "anyone" := Anyone,
    "lowfamiliar" := LowFamiliar,
    "mediumfamiliar" := MediumFamiliar,
    "highfamiliar" := HighFamiliar,
    "topfamiliar" := TopFamiliar,
    "localmoderator" := LocalModerator,
    "moderator" := Moderator,
    "localadmin" := LocalAdmin,
    "admin" := Admin,
    "self" := Self
  ]

  /** `strings.ToLower`, restricted to ASCII: each character lowered in place. */
  function Lower(s: string): (r: string)
    ensures |r| == |s|
    ensures forall i :: 0 <= i < |r| ==> !IsUpper(r[i])
  {
    seq(|s|, i requires 0 <= i < |s| => LowerChar(s[i]))
  }

  /** Lowering a lowered label changes nothing. */
  lemma LowerIdempotent(s: string)
    ensures Lower(Lower(s)) == Lower(s)
  {
    assert forall i :: 0 <= i < |s| ==> Lower(Lower(s))[i] == Lower(s)[i];
  }

  /** The vocabulary of a context as `relationMap[cname]` reads it: a context
      never registered reads as the empty (nil) map. */
  function VocabularyOf(contexts: Contexts, cname: string): Vocabulary {
    if cname in contexts then contexts[cname] else map[]
  }

  /** `AddRelation` on the table (const.go:79-88): opens the context if
      needed and writes the lower-cased relation, and nothing else. */
  function Register(contexts: Contexts, cname: string, relation: string, privilege: Privilege): (r: Contexts)
    ensures r.Keys == contexts.Keys + {cname}
    ensures r[cname].Keys == VocabularyOf(contexts, cname).Keys + {Lower(relation)}
    ensures r[cname][Lower(relation)] == privilege
    ensures forall c :: c in contexts && c != cname ==> r[c] == contexts[c]
    ensures forall x :: x in VocabularyOf(contexts, cname) && x != Lower(relation)
                        ==> r[cname][x] == contexts[cname][x]
  {
    contexts[cname := VocabularyOf(contexts, cname)[Lower(relation) := privilege]]
  }

  /** `getPrivilege` on the table (const.go:91-107): a registered context, or
      the global context named "", looks the lower-cased relation up in its
      own vocabulary and then in the default one; any other context is
      unknown. */
  function Resolve(contexts: Contexts, cname: string, relation: string): (r: Result<Privilege, RegistryError>)
    ensures r == Err(UnknownContext) <==> cname !in contexts && cname != ""
    ensures r == Err(UnknownRelation) <==>
              (cname in contexts || cname == "")
              && Lower(relation) !in VocabularyOf(contexts, cname)
              && Lower(relation) !in DefaultRelation
    ensures r.Ok? ==> r.value == (if Lower(relation) in VocabularyOf(contexts, cname)
                                  then VocabularyOf(contexts, cname)[Lower(relation)]
                                  else DefaultRelation[Lower(relation)])
  {
    if cname in contexts || cname == "" then
      var rel := Lower(relation);
      var cmap := VocabularyOf(contexts, cname);
      if rel in cmap then Ok(cmap[rel])
      else if rel in DefaultRelation then Ok(DefaultRelation[rel])
      else Err(UnknownRelation)
    else
      Err(UnknownContext)
  }

  /** After `AddRelation(c, r, p)`, every spelling of `r` resolves to `p` in
      that context. */
  lemma RegisterThenResolve(contexts: Contexts, cname: string, relation: string, privilege: Privilege, asked: string)
    requires Lower(asked) == Lower(relation)
    ensures Resolve(Register(contexts, cname, relation, privilege), cname, asked) == Ok(privilege)
  {
  }

  /** `AddRelation` changes the resolution of no other relation of an open
      context and of nothing in any other context. */
  lemma RegisterLeavesOthers(contexts: Contexts, cname: string, relation: string, privilege: Privilege,
                             c: string, asked: string)
    requires c != cname || (Lower(asked) != Lower(relation) && (cname in contexts || cname == ""))
    ensures Resolve(Register(contexts, cname, relation, privilege), c, asked) == Resolve(contexts, c, asked)
  {
  }

  /** The first registration in a named context opens it: its other relations
      go from "unknown context" to the default vocabulary. */
  lemma RegisterOpensContext(contexts: Contexts, cname: string, relation: string, privilege: Privilege, asked: string)
    requires cname !in contexts && cname != ""
    requires Lower(asked) != Lower(relation)
    ensures Resolve(contexts, cname, asked) == Err(UnknownContext)
    ensures Resolve(Register(contexts, cname, relation, privilege), cname, asked)
            == if Lower(asked) in DefaultRelation then Ok(DefaultRelation[Lower(asked)]) else Err(UnknownRelation)
  {
  }

  /** Resolution ignores case: a label and its lower-cased form resolve alike. */
  lemma ResolveIgnoresCase(contexts: Contexts, cname: string, relation: string)
    ensures Resolve(contexts, cname, relation) == Resolve(contexts, cname, Lower(relation))
  {
    LowerIdempotent(relation);
  }

  /** A context's own entry wins over the default vocabulary; a label it
      lacks falls back to the default one. */
  lemma OverrideAndFallback(contexts: Contexts, cname: string, relation: string)
    requires cname in contexts
    ensures Lower(relation) in contexts[cname]
            ==> Resolve(contexts, cname, relation) == Ok(contexts[cname][Lower(relation)])
    ensures Lower(relation) !in contexts[cname] && Lower(relation) in DefaultRelation
            ==> Resolve(contexts, cname, relation) == Ok(DefaultRelation[Lower(relation)])
  {
  }

  /** The global context resolves the default vocabulary with no
      registration at all, and the nil context is the global one. */
  lemma GlobalContextIsOpen(relation: string)
    ensures Resolve(map[], "", relation)
            == if Lower(relation) in DefaultRelation then Ok(DefaultRelation[Lower(relation)]) else Err(UnknownRelation)
    ensures Resolve(map[], NameOf(Nil), "self") == Ok(Self)
  {
    assert Lower("self") == "self";
  }

  /** The nil context, named "", never fails as an unknown context, whatever
      has been registered. */
  lemma NilContextIsGlobal(contexts: Contexts, relation: string)
    ensures Resolve(contexts, NameOf(Nil), relation) != Err(UnknownContext)
  {
  }

  /** The lower-cased forms of the labels the example uses. */
  lemma ExampleLabels()
    ensures Lower("banned") == Lower("BANNED") == "banned"
    ensures Lower("sameGroup") == Lower("SAMEGROUP") == "samegroup"
  {
  }

  /** The lower-cased forms of the labels the example looks up in vain. */
  lemma ExampleMissingLabels()
    ensures Lower("Admin") == "admin" && Lower("friend") == "friend"
  {
  }

  /** `relationMap` and the functions of const.go that use it. */
  class RelationRegistry {
    var contexts: Contexts

    /** The registry at start-up: no context registered (const.go:75). */
    constructor ()
      ensures contexts == map[]
    {
      contexts := map[];
    }

    /** `AddRelation` (const.go:79-88). */
    method AddRelation(context: Value, relation: string, privilege: Privilege)
      modifies this
      ensures contexts == Register(old(contexts), NameOf(context), relation, privilege)
    {
      var cname := GetName(context);
      if cname !in contexts {
        contexts := contexts[cname := map[]];
      }
      var rel := Lower(relation);
      contexts := contexts[cname := contexts[cname][rel := privilege]];
    }

    /** `getPrivilege` (const.go:91-107): names the context, then looks the
        lower-cased label up in the context's table and in the default one.
        It reads the registry and changes nothing. */
    method GetPrivilege(context: Value, relation: string) returns (r: Result<Privilege, RegistryError>)
      ensures r == Resolve(contexts, NameOf(context), relation)
    {
      var cname := GetName(context);
      if cname in contexts || cname == "" {
        var rel := Lower(relation);
        var cmap := if cname in contexts then contexts[cname] else map[];
        if rel in cmap {
          return Ok(cmap[rel]);
        }
        if rel in DefaultRelation {
          return Ok(DefaultRelation[rel]);
        }
        return Err(UnknownRelation);
      }
      return Err(UnknownContext);
    }
  }

  /** Registrations in the style of the token example (one label in the
      global, nil, context and one in the context of groups): each resolves in
      any spelling. */
  method ExampleRegistered() returns (banned: Result<Privilege, RegistryError>,
                                      sameGroup: Result<Privilege, RegistryError>)
    ensures banned == Ok(BadRelation) && sameGroup == Ok(LowFamiliar)
  {
    var group := Object("Group", None, "");
    GroupName();
    ExampleLabels();
    var registry := new RelationRegistry();
    registry.AddRelation(Nil, "banned", BadRelation);
    registry.AddRelation(group, "sameGroup", LowFamiliar);
    banned := registry.GetPrivilege(Nil, "BANNED");
    sameGroup := registry.GetPrivilege(group, "SAMEGROUP");
  }

  /** After the same registrations, a label registered nowhere but in the
      default vocabulary resolves in the group context, and a label known
      nowhere is an unknown relation there. */
  method ExampleFallbacks() returns (adminInGroup: Result<Privilege, RegistryError>,
                                     friendInGroup: Result<Privilege, RegistryError>)
    ensures adminInGroup == Ok(Admin) && friendInGroup == Err(UnknownRelation)
  {
    var group := Object("Group", None, "");
    GroupName();
    var registry := new RelationRegistry();
    registry.AddRelation(Nil, "banned", BadRelation);
    registry.AddRelation(group, "sameGroup", LowFamiliar);
    ExampleMissingLabels();
    adminInGroup := registry.GetPrivilege(group, "Admin");
    friendInGroup := registry.GetPrivilege(group, "friend");
  }

  /** A context of type `Post` that nobody registered is unknown, even for
      the default label "self". */
  method ExampleUnknownContext() returns (selfInPost: Result<Privilege, RegistryError>)
    ensures selfInPost == Err(UnknownContext)
  {
    var post := Object("Post", None, "");
    assert "Post" == ['P'] + "ost";
    Word('P', "ost", true);
    var registry := new RelationRegistry();
    selfInPost := registry.GetPrivilege(post, "self");
  }
}
