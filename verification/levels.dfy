/** The two ordinal scales of the library: the privilege a subject holds over
    another one and the access level a resource demands for an action. Both are
    plain Go `int`s (priv.go:31-35) and are only ever compared, never added, so
    unbounded integers model them exactly. */
module Levels {

  /** Strength of a subject's relation over another subject (priv.go:32). */
  type Privilege = int

  /** Minimum privilege an action on a resource demands (priv.go:35). */
  type AccessLevel = int

  // Recommended privileges, declared with iota from 0 (const.go:30-42).
  const BadRelation: Privilege := 0
  const Anyone: Privilege := 1
  const LowFamiliar: Privilege := 2
  const MediumFamiliar: Privilege := 3
  const HighFamiliar: Privilege := 4
  const TopFamiliar: Privilege := 5
  const LocalModerator: Privilege := 6
  const Moderator: Privilege := 7
  const LocalAdmin: Privilege := 8
  const Admin: Privilege := 9
  const Self: Privilege := 10

  // Recommended access levels, declared with iota + 1 (const.go:45-57).
  const Public: AccessLevel := 1
  const LowPrivate: AccessLevel := 2
  const MediumPrivate: AccessLevel := 3
  const HighPrivate: AccessLevel := 4
  const TopPrivate: AccessLevel := 5
  const LowConfidential: AccessLevel := 6
  const HighConfidential: AccessLevel := 7
  const LowSecret: AccessLevel := 8
  const HighSecret: AccessLevel := 9
  const TopSecret: AccessLevel := 10
  const NotSupport: AccessLevel := 11

  /** The recommended privileges in their declaration order. */
  const RecommendedPrivileges: seq<Privilege> :=
    [BadRelation, Anyone, LowFamiliar, MediumFamiliar, HighFamiliar, TopFamiliar,
     LocalModerator, Moderator, LocalAdmin, Admin, Self]

  /** The recommended access levels in their declaration order. */
  const RecommendedAccessLevels: seq<AccessLevel> :=
    [Public, LowPrivate, MediumPrivate, HighPrivate, TopPrivate, LowConfidential,
     HighConfidential, LowSecret, HighSecret, TopSecret, NotSupport]

  /** The two scales are the iota sequences 0..10 and 1..11: so the sentinel
      NotSupport lies above every recommended privilege and the sentinel
      BadRelation below every recommended access level. */
  lemma RecommendedScales()
    ensures |RecommendedPrivileges| == 11 && |RecommendedAccessLevels| == 11
    ensures forall i :: 0 <= i < |RecommendedPrivileges| ==> RecommendedPrivileges[i] == i
    ensures forall i :: 0 <= i < |RecommendedAccessLevels| ==> RecommendedAccessLevels[i] == i + 1
    ensures forall p :: p in RecommendedPrivileges ==> p < NotSupport
    ensures forall l :: l in RecommendedAccessLevels ==> BadRelation < l
  {
  }
}
