# xypriv in Dafny

A model of the access-control core of the Go library `xypriv`. The library
decides whether a subject may perform an action on a resource:

- The subject holds a privilege over the resource's owner in the resource's
  context.
- The resource demands an access level for the action.
- The action is allowed exactly when the privilege is at least that level.

The model covers five parts:

- The decision itself. `Checker` in `priv.go` becomes the class
  `Priv.Checker`, specified by the pure function `Priv.Decide`.
- The naming of Go values. `getName` in `priv.go` becomes `Names.GetName`,
  specified by `Names.NameOf` and `Names.SnakeCase`. `strings.Join` becomes
  `Names.Join`.
- The relation registry of `const.go`. The process-global `relationMap`
  becomes a `Registry.RelationRegistry` object. The pure functions
  `Registry.Register` and `Registry.Resolve` carry its laws.
- The least-privilege token of `token.go` (`Token.LeastPrivilegeToken`),
  whose `Delegate` loop is proved against the predicate `Token.Grants`.
- The map-backed abstract resources of `abstract_resource.go`
  (`AbstractResources`). Go map values are references: every copy of a
  details value shares one permissions table, so the table is an object
  (`PermissionTable`) of its own.

Modelling choices:

- A Go value of static type `any` is a `Names.Value`, reduced to what the
  library observes of it:
  - the nil interface (`Nil`);
  - otherwise the name of its dynamic type, the result of `String()` when it
    is a `fmt.Stringer`, and a payload standing for the value itself.
- Go's interface comparison `ctx == owner` (priv.go:107) is equality of
  `Value`s. Subjects are compared through their own `Value`.
- Privileges and access levels are Go `int`s that the library only compares,
  so unbounded integers model them exactly.
- The library's own panics become values:
  - a `Priv.Decision` (`NotImplemented`, `OwnerAsContext`) in `On`;
  - a `Registry.RegistryError` (`UnknownContext`, `UnknownRelation`) in
    `getPrivilege`.
- The panic of `getName(nil)` (priv.go:132) is not a value in the main
  model. Instead the model assumes the nil value is named "". That panic
  is reached from `AddRelation`, `getPrivilege`, `setRule`, `Delegate`, and
  `On` when it refuses a nil subject. `Names.NameOfAsWritten` and
  `Priv.DecideAsWritten` model the source as written, and the
  "## Findings" section compares the two.
- `strings.ToLower` is ASCII lower-casing (`Registry.Lower`), the same
  mapping `getName` applies to type names.

## Model

| member | source | states |
|---|---|---|
| Levels.RecommendedScales | const.go:30-57 | The privileges are the iota sequence 0..10 and the access levels 1..11. So `NotSupport` lies above every recommended privilege and `BadRelation` below every recommended access level. |
| Names.LowerChar | priv.go:136-138 | An upper-case ASCII letter becomes the matching lower-case letter. Every other character is unchanged. The result is never upper-case. |
| Names.NameOfAsWritten | priv.go:127-132 | `getName` as written fails exactly on the nil value. On every other value it gives `NameOf`. |
| Names.GetName | priv.go:127-146 | The rune loop yields `NameOf(v)`: the `String()` of a Stringer, else the snake_case of the type name. The loop invariant says the output so far is the snake_case of the prefix read so far. |
| Names.SnakeAppend | priv.go:135-143 | One more rune appends exactly its piece: itself, or its lower-case form, with `_` before it unless nothing was emitted yet. |
| Names.SnakeEmpty | priv.go:135-143 | The output is empty exactly when the type name is, so `len(result) > 0` means "not the first rune". |
| Names.SnakeHasNoUpper | priv.go:135-143 | No upper-case ASCII letter survives the conversion. |
| Names.SnakeOfLower | priv.go:135-143 | A name without upper-case ASCII letters is returned unchanged. |
| Names.SnakeIdempotent | priv.go:135-143 | Converting an already converted name changes nothing. |
| Names.SnakeConcat | priv.go:135-143 | Converting `a + b` converts `a`, then `b`. A capital opening `b` gets its `_` unless `a` is empty. |
| Names.Word | priv.go:135-143 | A capital followed by lower-case letters becomes its lower-case form, preceded by `_` unless it opens the name. |
| Names.StringName | token.go:43 | A Go string is of type `string`, so its name is "string". |
| Names.GroupName | priv.go:127-146 | The type `Group` is named "group". |
| Names.GroupPostName | priv.go:127-146 | The type `GroupPost` is named "group_post". |
| Names.JoinedActions | abstract_resource.go:61 | Joining with `_` maps ["create", "admin"] and ["create_admin"] to the same string, and no segments to "". |
| Priv.Decide | priv.go:92-124 | The decision fails in this order: `NotImplemented` exactly when the resource has no Permission shape; then `OwnerAsContext` exactly when the context is the non-nil owner; else `Allowed` exactly when the privilege reaches the required level, and `PermissionDenied` exactly when it falls short. |
| Priv.DecideAsWritten | priv.go:117-132 | `On` as written panics exactly when it refuses a nil subject, while naming that subject for the error message. Otherwise it gives `Decide`'s outcome. |
| Priv.AnonymousDenyPanics | tutorials/3.register_account/register_account_test.go:120-126 | A nil subject asking to create a moderator makes the source panic. `Decide` refuses it instead. |
| Priv.Checker.Check | priv.go:81-83 | `Check(s)` holds the subject and no action. |
| Priv.Checker.Perform | priv.go:86-89 | Replaces the action, keeps the subject, and returns the same Checker. |
| Priv.Checker.On | priv.go:92-124 | `On` returns `Decide` for the Checker's subject and action: allowed exactly when the resource is well configured and the privilege reaches the level. |
| Priv.Monotone | priv.go:117 | A higher privilege, or a lower demanded level, never turns an allow into a deny. |
| Priv.MisconfigurationFailsFirst | priv.go:93-110 | A misconfigured resource fails the same way whatever is asked and by whom, before any Relation call. |
| Priv.AnonymousSubject | priv.go:112-120 | A nil subject holds `Anyone`. It passes exactly the actions demanding `Public` or less, and is refused (`PermissionDenied`) exactly the others. |
| Priv.StaticIgnoresSubject | priv.go:94-96 | A simple resource demands the same level whoever asks. |
| Priv.Sentinels | const.go:41-56 | `NotSupport` denies every recommended privilege, `Self` included. `BadRelation` is denied every recommended access level. |
| Priv.RegisterAccountByRole | tutorials/3.register_account/register_account_test.go:108-118 | An admin creates admins and a moderator creates moderators. A moderator does not create admins. |
| Priv.RegisterAccountPlain | tutorials/3.register_account/register_account_test.go:120-126 | A plain user cannot create moderators. A nil subject creates plain users. |
| Priv.EnhancedResourceExample | tutorials/6.enhanced_resource/enhanced_resource_test.go:98-108 | An enhanced resource can refuse one user an action that is public to everyone else. |
| Registry.Lower | const.go:86 | Lower-casing keeps the length and leaves no upper-case ASCII letter. |
| Registry.LowerIdempotent | const.go:86-95 | Lower-casing twice is lower-casing once. |
| Registry.Register | const.go:79-88 | `AddRelation` adds the context if absent and writes the lower-cased relation to the privilege. Every other context and every other relation is unchanged. |
| Registry.Resolve | const.go:91-107 | Fails with "unknown context" exactly for a context that is neither registered nor the global "". Fails with "unknown relation" exactly when the lower-cased label is in neither the context's vocabulary nor the default one. Otherwise the context's own entry wins over the default. |
| Registry.RegisterThenResolve | const.go:79-107 | After `AddRelation(c, r, p)`, every spelling of `r` resolves to `p` in `c`. |
| Registry.RegisterLeavesOthers | const.go:79-107 | A registration changes no resolution in another context, nor of another label in an open context. |
| Registry.RegisterOpensContext | const.go:82-94 | The first registration in a named context turns "unknown context" into the default vocabulary for its other labels. |
| Registry.ResolveIgnoresCase | const.go:95 | A label and its lower-cased form resolve alike. |
| Registry.OverrideAndFallback | const.go:96-102 | In a registered context, its own entry wins over the default one, and a label it lacks falls back to the default. |
| Registry.GlobalContextIsOpen | const.go:94 | With nothing registered, the global context "" resolves the default vocabulary, and the nil context is that context. |
| Registry.NilContextIsGlobal | const.go:94 | The nil context is never an unknown context, whatever was registered. |
| Registry.ExampleLabels | const.go:86-95 | "banned" and "BANNED" lower to the same label, and so do "sameGroup" and "SAMEGROUP". |
| Registry.ExampleMissingLabels | const.go:95 | "Admin" lowers to the default label "admin", and "friend" stays "friend". |
| Registry.RelationRegistry.constructor | const.go:75 | The registry starts with no context. |
| Registry.RelationRegistry.GetPrivilege | const.go:91-107 | Names the context with `getName`, then returns `Resolve` of the current table for that name. It reads the registry and changes nothing. |
| Registry.RelationRegistry.AddRelation | const.go:79-88 | The new table is `Register` of the old one under `getName(context)`. |
| Registry.ExampleRegistered | tutorials/8.token/token_test.go:32-35 | A label registered in the nil context or in `Group` resolves in any spelling. |
| Registry.ExampleFallbacks | const.go:96-106 | In `Group`, "Admin" falls back to the default `Admin`, and "friend" is an unknown relation. |
| Registry.ExampleUnknownContext | const.go:94-106 | An unregistered `Post` context is unknown even for the default label "self". |
| Token.CandidateKeys | token.go:98-113 | `Delegate` probes exactly nine keys. |
| Token.EmptyTokenDenies | token.go:115-125 | A fresh token grants nothing. |
| Token.BanDominates | token.go:117-120 | A ban on any probed key vetoes, whatever the other keys allow. |
| Token.AllowGrants | token.go:62-64 | `Allow(rel, scope, act)` grants `act` to `rel` on a resource, or on its context, named like the scope, unless another probed key is banned. |
| Token.AllowScopeGrants | token.go:47-49 | `AllowScope(scope)` grants every action to every relation on a resource, or on its context, named like the scope, unless another probed key is banned. |
| Token.AddedAllowGrants | token.go:115-125 | Adding an allow on a probed key grants, unless another probed key is banned. |
| Token.SegmentationInvisible | token.go:96 | Two action paths with the same `_`-join probe the same keys. |
| Token.FirstDot | token.go:98-113 | In `x.y` with no dot in `x`, the first dot follows `x`. |
| Token.SplitAtDot | token.go:98-113 | Two dot-separated pairs with dot-free heads are equal exactly part by part. |
| Token.KeyInjective | token.go:98-113 | When action and relation hold no `.`, a key determines its action, relation and scope. |
| Token.KeyCollision | token.go:98-113 | Parts holding `.` can collide: relation "b.c" with action "a" gives the same key as relation "c" with action "a.b". |
| Token.CandidateKeyIff | token.go:98-113 | With dot-free parts, a key is probed exactly when its (action, relation, scope) triple is among the nine probed triples. |
| Token.SingleRule | token.go:115-125 | A token with one rule grants exactly when that rule is an allow on a probed key. |
| Token.LeastPrivilegeToken.NewToken | token.go:35-39 | `NewToken` holds no rules. |
| Token.LeastPrivilegeToken.SetRule | token.go:133-139 | Overwrites exactly the key built from the joined action, the relation and the scope's name. |
| Token.LeastPrivilegeToken.AllowAction | token.go:42-44 | Writes allow under `act..string`, because the scope is the Go string "". |
| Token.LeastPrivilegeToken.AllowScope | token.go:47-49 | Writes allow under `..scope`. |
| Token.LeastPrivilegeToken.AllowRelation | token.go:52-54 | Writes allow under `.rel.scope`. |
| Token.LeastPrivilegeToken.AllowActionInScope | token.go:57-59 | Writes allow under `act..scope`. |
| Token.LeastPrivilegeToken.Allow | token.go:62-64 | Writes allow under `act.rel.scope`. |
| Token.LeastPrivilegeToken.BanAction | token.go:67-69 | Writes ban under `act..string`. |
| Token.LeastPrivilegeToken.BanScope | token.go:72-74 | Writes ban under `..scope`. |
| Token.LeastPrivilegeToken.BanRelation | token.go:77-79 | Writes ban under `.rel.scope`. |
| Token.LeastPrivilegeToken.BanActionInScope | token.go:82-84 | Writes ban under `act..scope`. |
| Token.LeastPrivilegeToken.Ban | token.go:87-89 | Writes ban under `act.rel.scope`. |
| Token.LeastPrivilegeToken.Delegate | token.go:92-126 | The early-exit scan returns `Grants`: some probed key has a rule, and none of the probed rules is a ban. |
| Token.PostKeys | token.go:93-96 | For relation "self" on a `GroupPost` in a `Group`, the probed keys are built from "group_post" and "group". |
| Token.ReadPostGrants | tutorials/8.token/token_test.go:146-177 | An allow of "read" in the group-post scope grants "read" and not "update". |
| Token.ReadPostTokenExample | tutorials/8.token/token_test.go:146-177 | The same, through a token object. |
| Token.BanInScopeGrants | token.go:115-125 | An allow of the group scope grants "update" on a group post. A ban of "update" in the group-post scope vetoes it and leaves "read" granted. |
| Token.BanInScopeExample | token.go:82-120 | An added scenario, through a token object. `AllowScope(Group)` grants "update" on a group post, as at tutorials/8.token/token_test.go:165. A later `BanActionInScope(GroupPost, "update")` refuses "update" and leaves "read" granted. |
| Token.UnprobedGrants | token.go:42-49 | `AllowAction("read")` and `AllowScope(nil)` write keys no request on a group post probes. |
| Token.UnprobedTokenExample | tutorials/8.token/token_test.go:152-185 | Through token objects, neither of those allows grants "read" on a group post. |
| AbstractResources.SetThenGet | abstract_resource.go:60-79 | After `SetPermission(l, a...)`, `Permission(a...)` returns `l`. |
| AbstractResources.SetFrame | abstract_resource.go:61 | `SetPermission` leaves every action with a different join unchanged, and the last write wins. |
| AbstractResources.UnsetIsNotSupport | abstract_resource.go:80 | An action never set reads `NotSupport`. |
| AbstractResources.SegmentationInvisibleLevels | abstract_resource.go:61-79 | Two action paths with the same `_`-join read the same level, and a write under one is read under the other. |
| AbstractResources.JoinCollision | abstract_resource.go:61-76 | ["create", "admin"] and ["create_admin"] share one entry. |
| AbstractResources.UnsetActionDenied | abstract_resource.go:75-81 | `On` refuses an action never set on an abstract resource to every subject holding a recommended privilege, the nil subject included. |
| AbstractResources.PermissionTable.constructor | abstract_resource.go:35 | A new table is empty. |
| AbstractResources.ResourceDetails.Copy | abstract_resource.go:39 | A returned copy shares the stored table and has a nil context and owner. |
| AbstractResources.ResourceDetails.SetContext | abstract_resource.go:50-52 | Sets the context and leaves the owner. |
| AbstractResources.ResourceDetails.SetOwner | abstract_resource.go:55-57 | Sets the owner and leaves the context. |
| AbstractResources.ResourceDetails.SetPermission | abstract_resource.go:60-62 | Writes the level under the joined path in the shared table. Afterwards `Permission` of that path is the level, and every other path reads as before. |
| AbstractResources.ResourceStore.constructor | abstract_resource.go:28 | The store starts empty. |
| AbstractResources.ResourceStore.AbstractResource | abstract_resource.go:32-40 | Creates an empty table only for a new name and keeps a known name's table. Returns a fresh copy sharing the stored table. |
| AbstractResources.SharedTableExample | abstract_resource.go:32-62 | A level set through one handle is read through a second handle on the same name. The second handle's context is still nil. |

## Left out

- Reflection: the name of a value's dynamic type is given as a string in
  `Names.Value`. An unnamed type such as `*T` is modelled by giving it the
  type name "".
- Only ASCII letters are lower-cased. The Unicode case mapping of
  `strings.ToLower` is not modelled, and neither is the rune decoding of
  type names that are not valid UTF-8.
- Error values and their messages (`PermissionError`, `XyprivError`,
  `NotImplementedError`, and the `getName` of subject and resource in the
  message) are reduced to the outcome datatypes.
- The calls from `Checker` into the registry and into tokens are not part of
  this model. The `Delegate` step of the tutorials' `Check(...).Delegate(token)`
  is not in `priv.go` as modelled: tokens are modelled on their own.
- Priv.Decide, Priv.Checker.On: these assume the nil subject is named "".
  So a nil subject below the demanded level gets `PermissionDenied`, while
  the source panics in `getName(nil)` (priv.go:120, then 132).
  `Priv.DecideAsWritten` models that panic.
- Priv.Sentinels: its `NotSupport` clause covers the nil subject, which the
  source answers with the same `getName(nil)` panic rather than a refusal.
- AbstractResources.UnsetActionDenied: the same applies to its nil-subject
  case.
- Concurrency: the process-global `relationMap` and `abstractResourceStore`
  are ordinary objects with no synchronisation.
- The `Relation` and `Permission` methods of user types are arbitrary
  functions (`Priv.Subject.relation`, `Priv.Capability`). They are assumed to
  terminate and to have no side effects.
- AbstractResources.Details: an abstract resource's own identity is the
  same for all of them. It matters only to the names in error messages,
  which are left out.
- AbstractResources.ResourceDetails.Context, Owner, Permission and
  AsResource are plain reads with no contract of their own. What they return
  is stated through `LevelOf`, `Details` and the setters' contracts.

## Findings

| source | as written | input that shows it | evidently intended | confidence | as-written member | corrected member |
|---|---|---|---|---|---|---|
| priv.go:132 | `getName` calls `reflect.TypeOf(r).Name()`, and `reflect.TypeOf(nil)` is a nil `reflect.Type`, so the call panics on a nil value | `AddRelation(nil, "banned", BadRelation)`, as at tutorials/8.token/token_test.go:32, and `getPrivilege(nil, ...)` | the nil context is the global context named "" (the `cname == ""` guard at const.go:94) | not executed | Names.NameOfAsWritten | Registry.NilContextIsGlobal |
| priv.go:117-120 | when `On` refuses, it builds the error message with `getName(c.subject)`. For a nil subject this reaches the `getName(nil)` panic of priv.go:132, so the anonymous caller gets a panic instead of a `PermissionError` | `Check(nil).Perform("create", "mod").On(account)` with the account table of tutorials/3.register_account/register_account_test.go (the anonymous caller there only asks for "create user") | a nil subject is refused like any other subject (it holds `Anyone`, priv.go:112) | not executed | Priv.AnonymousDenyPanics | Priv.AnonymousSubject |
