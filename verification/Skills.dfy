/** The four skills of the game and a value kept for each of them. */
module Skills {

  datatype Skill = Dash | Phase | Teleport | SlowField

  datatype PerSkill<T> = PerSkill(dash: T, phase: T, teleport: T, slowField: T) {
    function Get(s: Skill): T {
      match s
      case Dash => dash
      case Phase => phase
      case Teleport => teleport
      case SlowField => slowField
    }

    function Set(s: Skill, v: T): PerSkill<T> {
      match s
      case Dash => this.(dash := v)
      case Phase => this.(phase := v)
      case Teleport => this.(teleport := v)
      case SlowField => this.(slowField := v)
    }
  }
}
