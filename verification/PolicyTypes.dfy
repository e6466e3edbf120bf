/** Records and enumerations shared by the parts of the policy engine. */
module PolicyTypes {
  import opened Wrappers

  datatype Action = Unspecified | Modify | Deactivate | Activate | Ignore | OutOfScope

  datatype ScoringSystem =
    | ScoringUnspecified | Weighted | Worst | Average | DataOnly | IgnoreScore | Banded | Decayed | ScoringDisabled

  datatype GroupType = Uncategorized | Chapter | Import | Override | Ignored | Disable | Properties | OutOfScopeGroup

  datatype ReviewStatus = NotReviewed | Approved | Rejected | PendingExtension

  type int32 = x: int | -0x8000_0000 <= x < 0x8000_0000

  datatype Impact = Impact(value: Option<int32>, scoring: ScoringSystem, weight: int, action: Action)

  /** 100 - v on unsigned 32-bit integers, for 32-bit v of either sign. */
  function HundredMinus(v: int): nat {
    if v <= 100 then 100 - v else (0x1_0000_0000 + 100 - v) % 0x1_0000_0000
  }

  /** The numbers that stand for actions in checksums. */
  function ActionNumber(a: Action): int {
    match a
    case Unspecified => 0 case Modify => 1 case Deactivate => 2 case Activate => 3 case Ignore => 4 case OutOfScope => 5
  }
}
