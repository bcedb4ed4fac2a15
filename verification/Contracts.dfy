/** Sample provenance of contracts.py: who produced a value, its number, and its two clocks. */
module Contracts {
  import opened Prelude

  /** A source's own time, absent where the source has none, beside the host time at which it was received. */
  datatype SampleTime = SampleTime(sourceNs: Option<int>, sourceClock: string, receivedNs: int)

  datatype Provenance = Provenance(sourceId: string, sequence: int, time: SampleTime, simulated: bool)

  datatype Role = Wrist | ThirdLeft | ThirdRight

  /** One value per camera role. */
  datatype PerRole<T> = PerRole(wrist: T, left: T, right: T) {
    function Get(role: Role): T {
      match role
      case Wrist => wrist
      case ThirdLeft => left
      case ThirdRight => right
    }

    function Put(role: Role, value: T): PerRole<T> {
      match role
      case Wrist => this.(wrist := value)
      case ThirdLeft => this.(left := value)
      case ThirdRight => this.(right := value)
    }
  }
}
