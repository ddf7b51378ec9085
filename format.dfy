/** The display formatters of utils/format.ts. */
module Format {
  import opened Backend
  import opened Text

  /** Nanoseconds per millisecond. */
  const NanosPerMilli: int := 1_000_000

  /** Principals up to this many characters are shown in full. */
  const MaxFullPrincipal: nat := 16

  // ---------------------------------------------------------------------------
  // formatTimestamp: the nanosecond to millisecond step
  // ---------------------------------------------------------------------------

  /** `timestamp / BigInt(1_000_000)`: bigint division truncates toward zero,
      which for a negative nanosecond count differs from Dafny's Euclidean `/`. */
  function NanosToMillis(ns: Time): (ms: int)
    ensures ns >= 0 ==> ms * NanosPerMilli <= ns < (ms + 1) * NanosPerMilli
    ensures ns < 0 ==> (ms - 1) * NanosPerMilli < ns <= ms * NanosPerMilli
  {
    if ns >= 0 then ns / NanosPerMilli else -((-ns) / NanosPerMilli)
  }

  /** Truncating division keeps the sign and never overshoots in magnitude. */
  lemma NanosToMillisMagnitude(ns: Time)
    ensures (ns >= 0 ==> NanosToMillis(ns) >= 0) && (ns <= 0 ==> NanosToMillis(ns) <= 0)
    ensures NanosToMillis(-ns) == -NanosToMillis(ns)
  {
  }

  /** The conversion is monotone over all timestamps, negative ones included. */
  lemma NanosToMillisMonotone(ns1: Time, ns2: Time)
    requires ns1 <= ns2
    ensures NanosToMillis(ns1) <= NanosToMillis(ns2)
  {
  }

  // ---------------------------------------------------------------------------
  // formatPrincipal
  // ---------------------------------------------------------------------------

  /** `formatPrincipal`: a principal of at most 16 characters is shown as it
      is; a longer one as its first 8 characters, `...`, and its last 6. */
  function FormatPrincipal(principal: string): (r: string)
    ensures |principal| <= MaxFullPrincipal ==> r == principal
    ensures |principal| > MaxFullPrincipal ==>
      |r| == 17 && r[..8] == principal[..8] && r[8..11] == "..." && r[11..] == principal[|principal| - 6..]
    ensures |r| <= |principal|
  {
    if |principal| <= MaxFullPrincipal then principal
    else principal[..8] + "..." + principal[|principal| - 6..]
  }

  /** Formatting an already formatted principal changes nothing: the short
      form is 17 characters long and keeps its own first 8 and last 6. */
  lemma FormatPrincipalIdempotent(principal: string)
    ensures FormatPrincipal(FormatPrincipal(principal)) == FormatPrincipal(principal)
  {
    var r := FormatPrincipal(principal);
    if |principal| > MaxFullPrincipal {
      assert r == r[..8] + r[8..11] + r[11..];
    }
  }

  // ---------------------------------------------------------------------------
  // formatBadgeId
  // ---------------------------------------------------------------------------

  /** `formatBadgeId`: `#` followed by the bigint's decimal rendering. */
  function FormatBadgeId(badgeId: BadgeId): (r: string)
    ensures |r| >= 2 && r[0] == '#' && r[1..] == IntToDecimal(badgeId)
  {
    "#" + IntToDecimal(badgeId)
  }

  /** Reads a displayed badge id back: strip the `#`, parse the digits. */
  function ParseBadgeLabel(shown: string): Option<BadgeId> {
    if |shown| >= 1 && shown[0] == '#' then ParseDecimal(shown[1..]) else None
  }

  /** The display form of a badge id determines the id. */
  lemma BadgeIdRoundTrip(badgeId: BadgeId)
    ensures ParseBadgeLabel(FormatBadgeId(badgeId)) == Some(badgeId)
  {
    IntDecimalRoundTrip(badgeId);
  }

  /** Distinct badge ids are displayed differently. */
  lemma FormatBadgeIdInjective(a: BadgeId, b: BadgeId)
    requires FormatBadgeId(a) == FormatBadgeId(b)
    ensures a == b
  {
    BadgeIdRoundTrip(a);
    BadgeIdRoundTrip(b);
  }
}
