/**
 * What the script builder reads from its surroundings rather than from the
 * project: the platform line terminator, the clock, fresh GUIDs, string hash
 * codes and the culture-dependent decimal parser. The model takes them as
 * one explicit input so that a script is a function of project and
 * environment.
 */
module Oracles {

  predicate IsHexDigit(ch: char) { '0' <= ch <= '9' || 'a' <= ch <= 'f' }

  /** `Guid.NewGuid().ToString("N")`: 32 lower-case hex digits. */
  type GuidText = s: string | |s| == 32 && forall i :: 0 <= i < |s| ==> IsHexDigit(s[i])
    witness "00000000000000000000000000000000"

  /** A `string.GetHashCode()` value; int.MinValue, on which `Math.Abs`
      throws, is excluded. */
  type HashCode = h: int | -0x7FFF_FFFF <= h <= 0x7FFF_FFFF

  datatype Environment = Environment(
    /** `Environment.NewLine`, written after every `AppendLine`. */
    newLine: string,
    /** `DateTime.UtcNow` in round-trip ("O") format. */
    generatedAt: string,
    /** The GUID drawn for the `k`-th foreign key of the `a`-th table. */
    newGuid: (nat, nat) -> GuidText,
    /** `string.GetHashCode()`, randomised per process. */
    hashCode: string -> HashCode,
    /** Whether `decimal.TryParse` accepts the text in the current culture. */
    parsesAsDecimal: string -> bool)
}
