/** Display helpers: address shortening, date fallback and the status label and badge tables. */
module Format {
  import opened Common

  /** `formatAddress(address)`: None stands for a missing or non-string value. */
  function FormatAddress(address: Option<string>): (r: string)
    ensures !Truthy(address) ==> r == ""
    ensures Truthy(address) && |address.value| < 10 ==> r == address.value
    ensures Truthy(address) && |address.value| >= 10 ==>
              |r| == 13 && r[..6] == address.value[..6] && r[6..9] == "..." &&
              r[9..] == address.value[|address.value| - 4..]
  {
    if !Truthy(address) then ""
    else
      var a := address.value;
      if |a| < 10 then a else JsSlice(a, 0, 6) + "..." + JsSlice(a, -4, |a|)
  }

  /** Shortening a shortened address changes nothing: it keeps its own first six and last four
      characters. */
  lemma FormatAddressIdempotent(address: Option<string>)
    requires FormatAddress(address) != ""
    ensures FormatAddress(Some(FormatAddress(address))) == FormatAddress(address)
  {
    var r := FormatAddress(address);
    if |address.value| >= 10 {
      var again := FormatAddress(Some(r));
      assert again[..6] == r[..6];
      assert again[9..] == r[9..];
      assert again == again[..6] + again[6..9] + again[9..];
      assert r == r[..6] + r[6..9] + r[9..];
    }
  }

  /** `formatDate(timestamp)`: "N/A" for a missing or empty timestamp and for one that does not
      give a valid date; `render` is the locale rendering of `Number(timestamp) * 1000`. */
  function FormatDate(timestamp: Option<string>, render: string -> Option<string>): (r: string)
    ensures !Truthy(timestamp) ==> r == "N/A"
    ensures Truthy(timestamp) ==> r == render(timestamp.value).GetOr("N/A")
  {
    if !Truthy(timestamp) then "N/A" else render(timestamp.value).GetOr("N/A")
  }

  function StatusLabel(status: int): string {
    match status
    case 0 => "Pending"
    case 1 => "Approved"
    case 2 => "Rejected"
    case _ => "Unknown"
  }

  function StatusColor(status: int): string {
    match status
    case 0 => "status-badge pending"
    case 1 => "status-badge verified"
    case 2 => "status-badge rejected"
    case _ => "status-badge"
  }

  function CleanupStatusLabel(status: int): string {
    match status
    case 0 => "Unpublished"
    case 1 => "Open"
    case 2 => "In Progress"
    case 3 => "Completed"
    case 4 => "Rewarded"
    case _ => "Unknown"
  }

  function KycStatusLabel(status: int): string {
    match status
    case 0 => "Not Started"
    case 1 => "Pending"
    case 2 => "Verified"
    case 3 => "Rejected"
    case _ => "Unknown"
  }

  /** The streak tables: the known statuses 0, 1, 2 have distinct labels and badges, every other
      value reads "Unknown" with the bare badge, and a label and its badge agree. */
  lemma StreakStatusTables(s: int, t: int)
    ensures 0 <= s <= 2 && 0 <= t <= 2 && s != t ==>
              StatusLabel(s) != StatusLabel(t) && StatusColor(s) != StatusColor(t)
    ensures StatusLabel(s) == "Unknown" <==> !(0 <= s <= 2)
    ensures StatusColor(s) == "status-badge" <==> StatusLabel(s) == "Unknown"
  {
  }

  /** Cleanup statuses 0..4 and KYC statuses 0..3 have distinct labels; anything else is
      "Unknown". The two tables give different labels to the same number: 1 is "Open" for a
      cleanup and "Pending" for KYC. */
  lemma CleanupAndKycTables(s: int, t: int)
    ensures 0 <= s <= 4 && 0 <= t <= 4 && s != t ==> CleanupStatusLabel(s) != CleanupStatusLabel(t)
    ensures CleanupStatusLabel(s) == "Unknown" <==> !(0 <= s <= 4)
    ensures 0 <= s <= 3 && 0 <= t <= 3 && s != t ==> KycStatusLabel(s) != KycStatusLabel(t)
    ensures KycStatusLabel(s) == "Unknown" <==> !(0 <= s <= 3)
  {
  }
}
