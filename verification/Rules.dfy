/** The rule sets a game can be played under. */
module Rules {

  datatype Option<T> = None | Some(value: T)

  datatype Ko = SimpleKo | PositionalSuperko | SituationalSuperko

  datatype RuleSet = RuleSet(name: string, ko: Ko, suicide: bool, defaultKomi: real)

  const RULE_SETS: seq<RuleSet> := [
    RuleSet("japanese", SimpleKo, false, 6.5),
    RuleSet("korean", SimpleKo, false, 6.5),
    RuleSet("chinese", PositionalSuperko, false, 7.5),
    RuleSet("aga", SituationalSuperko, false, 7.5),
    RuleSet("new-zealand", SituationalSuperko, true, 7.0),
    RuleSet("tromp-taylor", PositionalSuperko, true, 7.5)
  ]

  const DEFAULT_RULES := RULE_SETS[0]

  /** A handicap game's komi when none is given. */
  const HANDICAP_KOMI := 0.5
}
