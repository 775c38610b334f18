/** The decision check of priv.go: a Checker holds a subject and an action,
    and `On` compares the privilege the subject holds over the resource's
    owner with the access level the resource demands for the action. */
module Priv {
  import opened Wrappers
  import opened Levels
  import opened Names

  /** A Subject (priv.go:67-72): its identity, and its `Relation(s, ctx)`,
      the privilege it holds over the subject `s` within the context `ctx`.
      Subjects are passed around by identity, so `s` is the owner's `Value`. */
  datatype Subject = Subject(self: Value, relation: (Value, Value) -> Privilege)

  /** Which `Permission` method a resource implements: only the action
      (SimpleResource, priv.go:49-55), the subject and the action
      (EnhancedResource, priv.go:59-65), or neither. */
  datatype Capability =
    | Simple(permission: seq<string> -> AccessLevel)
    | Enhanced(permissionFor: (Option<Subject>, seq<string>) -> AccessLevel)
    | Neither

  /** A Resource (priv.go:39-45): its own identity, `Context()`, `Owner()`
      (`Nil` for a nil owner) and its Permission capability. */
  datatype Resource = Resource(self: Value, context: Value, owner: Value, capability: Capability)

  /** The outcome of `On`: nil, the PermissionError it returns, or one of
      the two panics it raises on a misconfigured resource. */
  datatype Decision =
    | Allowed
    | PermissionDenied
    | NotImplemented  // neither Permission shape (priv.go:99-101)
    | OwnerAsContext  // the context is the non-nil owner (priv.go:107-110)

  /** The resource implements a Permission shape and does not use its owner
      as its context. */
  predicate Configured(r: Resource) {
    !r.capability.Neither? && !(r.context == r.owner && r.owner != Nil)
  }

  /** The access level asked of the resource (priv.go:94-98): a static
      resource sees the action only, an enhanced one also the subject. */
  function RequiredLevel(subject: Option<Subject>, action: seq<string>, r: Resource): AccessLevel
    requires !r.capability.Neither?
  {
    match r.capability
    case Simple(permission) => permission(action)
    case Enhanced(permissionFor) => permissionFor(subject, action)
  }

  /** The privilege of the subject over the owner in the resource's context;
      `Anyone` for a nil subject, whose Relation is never asked
      (priv.go:112-115). */
  function PrivilegeOf(subject: Option<Subject>, r: Resource): Privilege {
    match subject
    case None => Anyone
    case Some(s) => s.relation(r.owner, r.context)
  }

  /** The decision `On` makes (priv.go:92-124). The checks run in the source's
      order: the Permission shape first, then the owner/context clash, and only
      then the comparison of ordinals. */
  function Decide(subject: Option<Subject>, action: seq<string>, r: Resource): (d: Decision)
    ensures d == NotImplemented <==> r.capability.Neither?
    ensures d == OwnerAsContext <==> !r.capability.Neither? && r.context == r.owner && r.owner != Nil
    ensures d == Allowed <==> Configured(r) && PrivilegeOf(subject, r) >= RequiredLevel(subject, action, r)
    ensures d == PermissionDenied <==> Configured(r) && PrivilegeOf(subject, r) < RequiredLevel(subject, action, r)
  {
    if r.capability.Neither? then NotImplemented
    else
      var level := RequiredLevel(subject, action, r);
      if r.context == r.owner && r.owner != Nil then OwnerAsContext
      else if PrivilegeOf(subject, r) < level then PermissionDenied
      else Allowed
  }

  /** `On` as the source writes it, where the message of a refusal names the
      subject with `getName(c.subject)` (priv.go:118-120); for a nil subject
      that is `getName(nil)`, which panics (priv.go:132). `None` stands for
      that panic; every other outcome is the one `Decide` gives. */
  function DecideAsWritten(subject: Option<Subject>, action: seq<string>, r: Resource): (d: Option<Decision>)
    ensures d.None? <==> subject.None? && Configured(r) && Anyone < RequiredLevel(subject, action, r)
    ensures d.Some? ==> d.value == Decide(subject, action, r)
  {
    var decision := Decide(subject, action, r);
    if decision == PermissionDenied && subject.None? && NameOfAsWritten(Nil).None? then None
    else Some(decision)
  }

  /** A Checker (priv.go:75-78): who asks, and what they want to do. */
  class Checker {
    var subject: Option<Subject>
    var action: seq<string>

    /** `Check(s)` (priv.go:81-83): the subject, and no action yet. */
    constructor Check(s: Option<Subject>)
      ensures subject == s && action == []
    {
      subject := s;
      action := [];
    }

    /** `Perform` (priv.go:86-89) replaces the action, keeps the subject and
        returns the same Checker. */
    method Perform(action: seq<string>) returns (c: Checker)
      modifies this
      ensures c == this
      ensures this.action == action && subject == old(subject)
    {
      this.action := action;
      c := this;
    }

    /** `On` (priv.go:92-124) decides without changing the Checker. */
    method On(r: Resource) returns (d: Decision)
      ensures d == Decide(subject, action, r)
      ensures d == Allowed <==> Configured(r) && PrivilegeOf(subject, r) >= RequiredLevel(subject, action, r)
    {
      var level: AccessLevel;
      match r.capability {
        case Simple(permission) =>
          level := permission(action);
        case Enhanced(permissionFor) =>
          level := permissionFor(subject, action);
        case Neither =>
          return NotImplemented;
      }
      var ctx, owner := r.context, r.owner;
      if ctx == owner && owner != Nil {
        return OwnerAsContext;
      }
      var privilege := Anyone;
      if subject.Some? {
        privilege := subject.value.relation(r.owner, ctx);
      }
      if privilege < level {
        return PermissionDenied;
      }
      return Allowed;
    }
  }

  /** Raising the privilege or lowering the demanded level never turns an
      allow into a deny (priv.go:117). */
  lemma Monotone(s1: Option<Subject>, a1: seq<string>, r1: Resource,
                 s2: Option<Subject>, a2: seq<string>, r2: Resource)
    requires Configured(r1) && Configured(r2)
    requires PrivilegeOf(s1, r1) <= PrivilegeOf(s2, r2)
    requires RequiredLevel(s2, a2, r2) <= RequiredLevel(s1, a1, r1)
    ensures Decide(s1, a1, r1) == Allowed ==> Decide(s2, a2, r2) == Allowed
  {
  }

  /** A misconfigured resource fails the same way whoever asks and whatever
      they ask: the failure comes before any Relation or comparison. */
  lemma MisconfigurationFailsFirst(s1: Option<Subject>, a1: seq<string>,
                                   s2: Option<Subject>, a2: seq<string>, r: Resource)
    requires !Configured(r)
    ensures Decide(s1, a1, r) == Decide(s2, a2, r)
    ensures Decide(s1, a1, r) in {NotImplemented, OwnerAsContext}
  {
  }

  /** A nil subject holds `Anyone`: it passes exactly the actions demanding
      `Public` or less, and is refused the others like any subject. */
  lemma AnonymousSubject(action: seq<string>, r: Resource)
    requires Configured(r)
    ensures Decide(None, action, r) == Allowed <==> RequiredLevel(None, action, r) <= Public
    ensures Decide(None, action, r) == PermissionDenied <==> Public < RequiredLevel(None, action, r)
  {
  }

  /** A static resource demands the same level whoever asks. */
  lemma StaticIgnoresSubject(s1: Option<Subject>, s2: Option<Subject>, action: seq<string>, r: Resource)
    requires r.capability.Simple?
    ensures RequiredLevel(s1, action, r) == RequiredLevel(s2, action, r) == r.capability.permission(action)
  {
  }

  /** `NotSupport` denies every subject holding a recommended privilege, the
      owner's own `Self` included; `BadRelation` is denied every recommended
      access level. */
  lemma Sentinels(s: Option<Subject>, action: seq<string>, r: Resource)
    requires Configured(r)
    ensures RequiredLevel(s, action, r) == NotSupport && PrivilegeOf(s, r) in RecommendedPrivileges
            ==> Decide(s, action, r) == PermissionDenied
    ensures PrivilegeOf(s, r) == BadRelation && RequiredLevel(s, action, r) in RecommendedAccessLevels
            ==> Decide(s, action, r) == PermissionDenied
  {
    RecommendedScales();
  }

  // The register-account example: users whose privilege comes from their role.

  function UserValue(id: string): Value {
    Object("User", None, id)
  }

  function RoleUser(id: string, role: string): Subject {
    Subject(UserValue(id), (owner, ctx) =>
      if role == "admin" then Admin
      else if role == "mod" then Moderator
      else if owner == UserValue(id) then Self
      else Anyone)
  }

  /** The account table demands a level that depends on the role created. */
  function AccountLevel(action: seq<string>): AccessLevel {
    if |action| != 2 || action[0] != "create" then NotSupport
    else if action[1] == "admin" then HighSecret
    else if action[1] == "mod" then HighConfidential
    else if action[1] == "user" then Public
    else NotSupport
  }

  const AccountTable: Resource := Resource(Object("AccountTable", None, ""), Nil, Nil, Simple(AccountLevel))

  /** A parameterised action: admins create admins, moderators create
      moderators but not admins. */
  method RegisterAccountByRole() returns (adminAdmin: Decision, modMod: Decision, modAdmin: Decision)
    ensures adminAdmin == Allowed && modMod == Allowed && modAdmin == PermissionDenied
  {
    var c := new Checker.Check(Some(RoleUser("Admin", "admin")));
    c := c.Perform(["create", "admin"]);
    adminAdmin := c.On(AccountTable);
    c := new Checker.Check(Some(RoleUser("Mod", "mod")));
    c := c.Perform(["create", "mod"]);
    modMod := c.On(AccountTable);
    c := c.Perform(["create", "admin"]);
    modAdmin := c.On(AccountTable);
  }

  /** A nil subject asking to create a moderator: the source panics while
      naming the subject for its refusal, where a refusal is meant. */
  lemma AnonymousDenyPanics()
    ensures DecideAsWritten(None, ["create", "mod"], AccountTable) == None
    ensures Decide(None, ["create", "mod"], AccountTable) == PermissionDenied
  {
    assert AccountLevel(["create", "mod"]) == HighConfidential;
  }

  /** A plain user cannot create moderators, and anybody, even without a
      subject, creates plain users. */
  method RegisterAccountPlain() returns (userMod: Decision, anonymousUser: Decision)
    ensures userMod == PermissionDenied && anonymousUser == Allowed
  {
    var c := new Checker.Check(Some(RoleUser("User", "")));
    c := c.Perform(["create", "mod"]);
    userMod := c.On(AccountTable);
    c := new Checker.Check(None);
    c := c.Perform(["create", "user"]);
    anonymousUser := c.On(AccountTable);
  }

  // The enhanced-resource example: an avatar that bans some users.

  /** A user's privilege: Self over itself outside any context, else Anyone. */
  function AvatarUser(id: string): Subject {
    Subject(UserValue(id), (owner, ctx) =>
      if ctx != Nil then Anyone
      else if owner == UserValue(id) then Self
      else Anyone)
  }

  /** Reading an avatar is public, except for the users it banned. */
  function AvatarLevel(banned: seq<string>): (Option<Subject>, seq<string>) -> AccessLevel {
    (s: Option<Subject>, action: seq<string>) =>
      if |action| != 1 || action[0] != "read" then NotSupport
      else if s.Some? && s.value.self.Object? && s.value.self.typeName == "User"
              && s.value.self.payload in banned then NotSupport
      else Public
  }

  /** The owner and an unrelated user read the avatar; the banned user does
      not, although reading is public. */
  lemma EnhancedResourceExample()
    ensures var avatar := Resource(Object("Avatar", None, "A"), Nil, UserValue("A"), Enhanced(AvatarLevel(["C"])));
            && Decide(Some(AvatarUser("A")), ["read"], avatar) == Allowed
            && Decide(Some(AvatarUser("B")), ["read"], avatar) == Allowed
            && Decide(Some(AvatarUser("C")), ["read"], avatar) == PermissionDenied
  {
  }
}
