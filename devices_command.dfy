/** The command-line tool's `devices` command: the exit code it returns, the
    column truncation of network addresses, the table row printed for each
    device, and the sub-address count of the verbose listing. */
module DevicesCmd {
  import opened Common
  import opened Text
  import opened MoppyCore

  /** `str.substring(0, n)` failing: Java throws when `n` is negative. */
  datatype TruncateError = IndexOutOfBounds(index: int)

  /** truncate: an absent string prints as empty, a string that fits is kept,
      a longer one keeps its first `maxLength - 3` characters and gains "...",
      which fails when that count is negative. */
  function Truncate(str: Option<string>, maxLength: int): (r: Result<string, TruncateError>)
    ensures str.None? ==> r == Ok("")
    ensures str.Some? && |str.value| <= maxLength ==> r == Ok(str.value)
    ensures str.Some? && |str.value| > maxLength && maxLength >= 3 ==>
      r.Ok? && |r.value| == maxLength
      && r.value[..maxLength - 3] == str.value[..maxLength - 3]
      && r.value[maxLength - 3..] == "..."
    ensures r.Err? <==> str.Some? && |str.value| > maxLength && maxLength < 3
    ensures r.Ok? && maxLength >= 3 ==> |r.value| <= maxLength
  {
    match str
    case None => Ok("")
    case Some(s) =>
      if |s| <= maxLength then Ok(s)
      else if maxLength - 3 < 0 then Err(IndexOutOfBounds(maxLength - 3))
      else Ok(s[..maxLength - 3] + "...")
  }

  /** The sub-address count of the verbose listing: both bounds read unsigned. */
  function SubAddressCount(d: DeviceDescriptor): int
  {
    Unsigned(d.maxSubAddress) - Unsigned(d.minSubAddress) + 1
  }

  /** The integers from `lo` to `hi`, inclusive. */
  function IntRange(lo: int, hi: int): set<int>
    decreases hi - lo
  {
    if lo > hi then {} else {lo} + IntRange(lo + 1, hi)
  }

  /** The sub-addresses from the lower bound to the upper one, inclusive. */
  function SubAddresses(d: DeviceDescriptor): set<int>
  {
    IntRange(Unsigned(d.minSubAddress), Unsigned(d.maxSubAddress))
  }

  /** `lo..hi` holds exactly the integers between its bounds, `hi - lo + 1`
      of them, and none when it is empty. */
  lemma {:induction false} RangeSize(lo: int, hi: int)
    ensures forall k :: k in IntRange(lo, hi) <==> lo <= k <= hi
    ensures |IntRange(lo, hi)| == if lo <= hi then hi - lo + 1 else 0
    decreases hi - lo
  {
    if lo <= hi {
      RangeSize(lo + 1, hi);
      assert lo !in IntRange(lo + 1, hi);
    }
  }

  /** The printed count is the number of sub-addresses when the range is in
      order, between 1 and 256; a reversed range prints zero or less. */
  lemma SubAddressCountIsRangeSize(d: DeviceDescriptor)
    ensures Unsigned(d.minSubAddress) <= Unsigned(d.maxSubAddress) ==>
      SubAddressCount(d) == |SubAddresses(d)| && 1 <= SubAddressCount(d) <= 256
    ensures Unsigned(d.minSubAddress) > Unsigned(d.maxSubAddress) ==>
      SubAddressCount(d) <= 0 && SubAddresses(d) == {}
  {
    RangeSize(Unsigned(d.minSubAddress), Unsigned(d.maxSubAddress));
  }

  /** The exit code of the command: 1 when nothing answered, 0 otherwise. */
  function ExitCode(devices: seq<DeviceDescriptor>): (code: int)
    ensures code == 1 <==> devices == []
    ensures code == 0 <==> devices != []
  {
    if |devices| == 0 then 1 else 0
  }

  /** The address column: the network address cut to 20 characters. */
  function AddressCell(d: DeviceDescriptor): (s: string)
    ensures |s| <= 20
    ensures |d.networkAddress| <= 20 ==> s == d.networkAddress
  {
    match Truncate(Some(d.networkAddress), 20)
    case Ok(t) => t
    case Err(_) => assert false; ""
  }

  /** One table row: `"│ %-7d │ %-20s │ %-15s │"` of the unsigned device
      address, the cut network address and the "min-max" range. */
  function Row(d: DeviceDescriptor): string
  {
    var range := Decimal(Unsigned(d.minSubAddress)) + "-" + Decimal(Unsigned(d.maxSubAddress));
    "│ " + PadRight(Decimal(Unsigned(d.deviceAddress)), 7) + " │ "
      + PadRight(AddressCell(d), 20) + " │ " + PadRight(range, 15) + " │"
  }

  /** Every row has the same width as the table's borders, whatever the device. */
  lemma RowsAligned(d: DeviceDescriptor)
    ensures |Row(d)| == 52
  {
    DecimalShort(Unsigned(d.deviceAddress));
    DecimalShort(Unsigned(d.minSubAddress));
    DecimalShort(Unsigned(d.maxSubAddress));
  }
}
