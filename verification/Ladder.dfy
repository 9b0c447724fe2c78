/** The promotion ladder: the stages and the legal moves between them. */
module Ladder {

  datatype Stage = Candidate | Shadow | Micro | Live | Scaled | Retired | DemoOnly

  predicate Money(s: Stage) { s == Micro || s == Live || s == Scaled }

  /** The moves the ladder knows. */
  predicate Allowed(a: Stage, b: Stage) {
    match a
    case Candidate => b == Shadow || b == Retired
    case Shadow => b == Micro || b == Retired || b == DemoOnly
    case Micro => b == Live || b == Retired || b == Shadow
    case Live => b == Scaled || b == Micro
    case Scaled => b == Live
    case DemoOnly => b == Shadow || b == Retired
    case Retired => false
  }
}
