/**
 * The stateless helpers of `utils/contractUtils.ts`: address shortening and
 * validation, the status-to-text and status-to-colour maps, deadline day
 * buckets, error-message extraction and the file-type icon.
 *
 * `Date.now()` is the parameter `now` wherever the source reads the clock.
 */
module ContractUtils {
  import opened Opt
  import opened Seqs
  import opened Text
  import opened Types

  // ----- Addresses -----

  /**
   * `shortenAddress(address, chars)`: the empty string stays empty; otherwise
   * `slice(0, chars + 2)`, then "...", then `slice(-chars)`.
   */
  function ShortenAddress(address: string, chars: int): (r: string)
    ensures address == "" <==> r == ""
  {
    if address == "" then "" else SlicePrefix(address, chars + 2) + "..." + SliceFrom(address, -chars)
  }

  /**
   * For a positive width the address keeps its first `chars + 2` and its last
   * `chars` characters (all of it, twice over, when it is too short).
   */
  lemma ShortenKeepsEnds(address: string, chars: int)
    requires address != "" && chars > 0
    ensures var k := if chars + 2 < |address| then chars + 2 else |address|;
            var j := if chars < |address| then |address| - chars else 0;
            ShortenAddress(address, chars) == address[..k] + "..." + address[j..]
  {
  }

  /** The default width of `shortenAddress`. */
  const SHORTEN_CHARS: int := 4

  /**
   * On a well-formed address the default shortening keeps "0x" and the first
   * four digits, then "...", then the last four digits: 13 characters.
   */
  lemma ShortenValidAddress(address: string)
    requires ValidateEthereumAddress(address)
    ensures var r := ShortenAddress(address, SHORTEN_CHARS);
      |r| == 13 && r[..6] == address[..6] && r[6..9] == "..." && r[9..] == address[38..]
  {
    ValidAddressShape(address);
    var r := ShortenAddress(address, SHORTEN_CHARS);
    assert SlicePrefix(address, 6) == address[..6];
    assert SliceFrom(address, -4) == address[38..];
    assert r == address[..6] + "..." + address[38..];
  }

  /**
   * With `chars == 0`, `slice(-0)` is `slice(0)`, so the "suffix" is the whole
   * address and the result is longer than the input.
   */
  lemma ShortenWithZeroChars(address: string)
    requires address != ""
    ensures ShortenAddress(address, 0) == SlicePrefix(address, 2) + "..." + address
    ensures |ShortenAddress(address, 0)| > |address|
  {
  }

  /** `[a-fA-F0-9]{n}$`: exactly `n` hex digits and then the end of the input. */
  function HexRunToEnd(s: string, n: nat): (b: bool)
    ensures b <==> |s| == n && IsHexString(s)
    decreases n
  {
    if n == 0 then s == []
    else
      if s == [] || !IsHexDigit(s[0]) then false
      else
        var b := HexRunToEnd(s[1..], n - 1);
        assert IsHexString(s) <==> IsHexDigit(s[0]) && IsHexString(s[1..]) by {
          assert forall i :: 1 <= i < |s| ==> s[i] == s[1..][i - 1];
        }
        b
  }

  /**
   * `validateEthereumAddress`: the pattern `^0x[a-fA-F0-9]{40}$`, matched
   * character by character. The prefix is a lower-case "0x" only, the digits
   * may be in either case, and no checksum is computed.
   */
  function ValidateEthereumAddress(address: string): (b: bool)
    ensures b ==> |address| == 42 && address[..2] == "0x"
  {
    |address| >= 2 && address[0] == '0' && address[1] == 'x' && HexRunToEnd(address[2..], 40)
  }

  /** The pattern accepts exactly the 42-character strings "0x" + 40 hex digits. */
  lemma ValidAddressShape(address: string)
    ensures ValidateEthereumAddress(address) <==>
              |address| == 42 && address[..2] == "0x" && IsHexString(address[2..])
  {
    if |address| >= 2 && address[..2] == "0x" {
      assert address[0] == '0' && address[1] == 'x';
    }
  }

  /** No checksum: lower-casing a valid address keeps it valid. */
  lemma ValidAddressLowered(address: string)
    requires ValidateEthereumAddress(address)
    ensures ValidateEthereumAddress(Lower(address))
  {
    ValidAddressShape(address);
    var l := Lower(address);
    assert l[2..] == Lower(address[2..]);
    assert IsHexString(l[2..]);
    assert l[..2] == "0x";
    ValidAddressShape(l);
  }

  /** Upper-case "0X" is not accepted, although `Lower` would turn it into a valid address. */
  lemma UpperPrefixRejected(address: string)
    requires |address| >= 2 && address[1] == 'X'
    ensures !ValidateEthereumAddress(address)
  {
  }

  // ----- Status text and colour -----

  const BLUE: string := "text-blue-600 bg-blue-50 border-blue-200"
  const GREEN: string := "text-green-600 bg-green-50 border-green-200"
  const PURPLE: string := "text-purple-600 bg-purple-50 border-purple-200"
  const RED: string := "text-red-600 bg-red-50 border-red-200"
  const ORANGE: string := "text-orange-600 bg-orange-50 border-orange-200"
  const GRAY: string := "text-gray-600 bg-gray-50 border-gray-200"
  const YELLOW: string := "text-yellow-600 bg-yellow-50 border-yellow-200"

  /** `getCaseStatusText`: the member's name, or "Unknown" for a number that is not a `CaseStatus`. */
  function CaseStatusText(status: int): (r: string)
    ensures r == "Unknown" <==> CaseStatusOf(status).None?
  {
    if status == 0 then "None"
    else if status == 1 then "Open"
    else if status == 2 then "Funded"
    else if status == 3 then "Accepted"
    else if status == 4 then "Resolved"
    else if status == 5 then "Disputed"
    else if status == 6 then "Released"
    else if status == 7 then "Refunded"
    else if status == 8 then "Cancelled"
    else "Unknown"
  }

  /** Distinct case states have distinct text. */
  lemma CaseStatusTextInjective(a: CaseStatus, b: CaseStatus)
    requires a != b
    ensures CaseStatusText(a.Code()) != CaseStatusText(b.Code())
  {
  }

  /**
   * `getCaseStatusColor`: Funded, Resolved and Released share green; None,
   * Cancelled and every unknown number share the grey default.
   */
  function CaseStatusColor(status: int): (r: string)
    ensures r == GREEN <==> status == 2 || status == 4 || status == 6
    ensures r == GRAY <==> status == 0 || status == 8 || CaseStatusOf(status).None?
  {
    if status == 1 then BLUE
    else if status == 2 then GREEN
    else if status == 3 then PURPLE
    else if status == 4 then GREEN
    else if status == 5 then RED
    else if status == 6 then GREEN
    else if status == 7 then ORANGE
    else if status == 8 then GRAY
    else GRAY
  }

  /** `getCampaignStatusText`; PayoutReady reads "Payout Ready". */
  function CampaignStatusText(status: int): (r: string)
    ensures r == "Unknown" <==> CampaignStatusOf(status).None?
  {
    if status == 0 then "None"
    else if status == 1 then "Active"
    else if status == 2 then "Succeeded"
    else if status == 3 then "Failed"
    else if status == 4 then "Cancelled"
    else if status == 5 then "Payout Ready"
    else if status == 6 then "Refunding"
    else "Unknown"
  }

  lemma CampaignStatusTextInjective(a: CampaignStatus, b: CampaignStatus)
    requires a != b
    ensures CampaignStatusText(a.Code()) != CampaignStatusText(b.Code())
  {
  }

  /** `getCampaignStatusColor`: Succeeded and PayoutReady share green; None, Cancelled and unknown numbers are grey. */
  function CampaignStatusColor(status: int): (r: string)
    ensures r == GREEN <==> status == 2 || status == 5
    ensures r == GRAY <==> status == 0 || status == 4 || CampaignStatusOf(status).None?
  {
    if status == 1 then BLUE
    else if status == 2 then GREEN
    else if status == 3 then RED
    else if status == 4 then GRAY
    else if status == 5 then GREEN
    else if status == 6 then ORANGE
    else GRAY
  }

  /** `getPractitionerStatusText`. */
  function PractitionerStatusText(status: int): (r: string)
    ensures r == "Unknown" <==> PractitionerStatusOf(status).None?
  {
    if status == 0 then "None"
    else if status == 1 then "Pending"
    else if status == 2 then "Approved"
    else if status == 3 then "Revoked"
    else "Unknown"
  }

  lemma PractitionerStatusTextInjective(a: PractitionerStatus, b: PractitionerStatus)
    requires a != b
    ensures PractitionerStatusText(a.Code()) != PractitionerStatusText(b.Code())
  {
  }

  /** `getPractitionerStatusColor`: only None and unknown numbers are grey, and the three others differ. */
  function PractitionerStatusColor(status: int): (r: string)
    ensures r == GRAY <==> status == 0 || PractitionerStatusOf(status).None?
    ensures 1 <= status <= 3 ==> r != GRAY
  {
    if status == 1 then YELLOW
    else if status == 2 then GREEN
    else if status == 3 then RED
    else GRAY
  }

  // ----- Deadlines -----

  /** `Math.ceil(x / d)` for a positive divisor. */
  function CeilDiv(x: int, d: int): (q: int)
    requires d > 0
    ensures (q - 1) * d < x <= q * d
  {
    -((-x) / d)
  }

  /** `Math.ceil((deadline - now) / (1000 * 60 * 60 * 24))`: whole days left, rounded up. */
  function DayDiff(deadline: int, now: int): (days: int)
    ensures (days - 1) * DAY_MS < deadline - now <= days * DAY_MS
  {
    CeilDiv(deadline - now, DAY_MS)
  }

  /** `isUrgent(deadline, thresholdDays)` for an integral threshold (the default is 3). */
  predicate IsUrgent(deadline: int, now: int, thresholdDays: int)
    ensures IsUrgent(deadline, now, thresholdDays) ==> deadline - now > -DAY_MS
  {
    var diffInDays := DayDiff(deadline, now);
    diffInDays <= thresholdDays && diffInDays >= 0
  }

  /**
   * Urgent means: less than one day overdue, and due within the threshold.
   * A deadline that passed earlier today still counts as urgent.
   */
  lemma {:induction false} IsUrgentWindow(deadline: int, now: int, thresholdDays: int)
    ensures IsUrgent(deadline, now, thresholdDays) <==>
              -DAY_MS < deadline - now <= thresholdDays * DAY_MS
  {
    var days := DayDiff(deadline, now);
    var x := deadline - now;
    if days < 0 {
      assert days * DAY_MS <= -DAY_MS;
    }
    if days > thresholdDays {
      assert (days - 1) * DAY_MS >= thresholdDays * DAY_MS;
    }
    if days <= thresholdDays {
      assert days * DAY_MS <= thresholdDays * DAY_MS;
    }
  }

  /** The buckets `formatDeadline` sorts a deadline into; `OnDate` is rendered with the locale's date format. */
  datatype DeadlineLabel = Overdue | DueToday | DueTomorrow | DueInDays(days: int) | OnDate(deadline: int) {
    /** The text shown; the locale date of `OnDate` is not modelled, and `None` stands for it. */
    function Text(): Option<string> {
      match this
      case Overdue => Some("Overdue")
      case DueToday => Some("Due today")
      case DueTomorrow => Some("Due tomorrow")
      case DueInDays(n) => Some("Due in " + (if n >= 0 then NatToString(n) else "-") + " days")
      case OnDate(_) => Option.None
    }
  }

  /** `formatDeadline`: the bucket of the rounded-up day difference. */
  function FormatDeadline(deadline: int, now: int): (r: DeadlineLabel)
    ensures r == Overdue <==> deadline - now <= -DAY_MS
    ensures r == DueToday <==> -DAY_MS < deadline - now <= 0
    ensures r == DueTomorrow <==> 0 < deadline - now <= DAY_MS
    ensures r.DueInDays? <==> DAY_MS < deadline - now <= 7 * DAY_MS
    ensures r.DueInDays? ==> 2 <= r.days <= 7 && r.days == DayDiff(deadline, now)
    ensures r.OnDate? <==> deadline - now > 7 * DAY_MS
  {
    var diffInDays := DayDiff(deadline, now);
    if diffInDays < 0 then Overdue
    else if diffInDays == 0 then DueToday
    else if diffInDays == 1 then DueTomorrow
    else if diffInDays <= 7 then DueInDays(diffInDays)
    else OnDate(deadline)
  }

  /** `validateDeadline`: strictly in the future. */
  predicate ValidateDeadline(deadline: int, now: int)
    ensures ValidateDeadline(deadline, now) <==> DayDiff(deadline, now) >= 1
  {
    deadline > now
  }

  /** A deadline that passes validation is never shown as overdue nor as due today. */
  lemma ValidDeadlineLabel(deadline: int, now: int)
    requires ValidateDeadline(deadline, now)
    ensures FormatDeadline(deadline, now) != Overdue && FormatDeadline(deadline, now) != DueToday
  {
  }

  /** With the default threshold of 3, a deadline is urgent exactly when its label is today, tomorrow, or in 2 or 3 days. */
  lemma UrgentMatchesLabel(deadline: int, now: int)
    ensures IsUrgent(deadline, now, 3) <==>
              var l := FormatDeadline(deadline, now);
              l == DueToday || l == DueTomorrow || (l.DueInDays? && l.days <= 3)
  {
    IsUrgentWindow(deadline, now, 3);
  }

  // ----- Errors -----

  /**
   * The shapes of a thrown value `getErrorMessage` distinguishes: a string; an
   * object with an optional `message` and an optional nested `error.message`;
   * or anything without either (null, undefined, numbers).
   */
  datatype ThrownValue = Str(text: string) | Obj(message: Option<string>, innerMessage: Option<string>) | Other

  const UNKNOWN_ERROR: string := "An unknown error occurred"

  /** A present, non-empty string: JavaScript's truthiness on a string field. */
  predicate Truthy(s: Option<string>) {
    s.Some? && s.value != ""
  }

  /** `getErrorMessage`: a string as it is, then a truthy `message`, then a truthy `error.message`, then the default. */
  function GetErrorMessage(error: ThrownValue): (r: string)
    ensures error.Str? ==> r == error.text
    ensures error.Obj? && Truthy(error.message) ==> r == error.message.value
    ensures error.Obj? && !Truthy(error.message) && Truthy(error.innerMessage) ==> r == error.innerMessage.value
    ensures !error.Str? && !(error.Obj? && (Truthy(error.message) || Truthy(error.innerMessage))) ==> r == UNKNOWN_ERROR
  {
    match error
    case Str(s) => s
    case Obj(m, inner) =>
      if Truthy(m) then m.value
      else if Truthy(inner) then inner.value
      else UNKNOWN_ERROR
    case Other => UNKNOWN_ERROR
  }

  /** The message is empty only when the thrown value was itself the empty string. */
  lemma ErrorMessageNonEmpty(error: ThrownValue)
    ensures GetErrorMessage(error) == "" <==> error == Str("")
  {
  }

  // ----- Files -----

  /** The six icons of `getFileIcon`: document, note, picture, film, music, paper clip. */
  datatype FileIcon = DocumentIcon | NoteIcon | ImageIcon | VideoIcon | AudioIcon | ClipIcon

  /** `getFileIcon`: the first of pdf, doc or docx, image, video, audio contained in the lower-cased type. */
  function GetFileIcon(fileType: string): (r: FileIcon)
    ensures var t := Lower(fileType);
      var doc := Contains(t, "doc") || Contains(t, "docx");
      && (r == DocumentIcon <==> Contains(t, "pdf"))
      && (r == NoteIcon <==> !Contains(t, "pdf") && doc)
      && (r == ImageIcon <==> !Contains(t, "pdf") && !doc && Contains(t, "image"))
      && (r == VideoIcon <==> !Contains(t, "pdf") && !doc && !Contains(t, "image") && Contains(t, "video"))
      && (r == AudioIcon <==> !Contains(t, "pdf") && !doc && !Contains(t, "image") && !Contains(t, "video") &&
                              Contains(t, "audio"))
      && (r == ClipIcon <==> !Contains(t, "pdf") && !doc && !Contains(t, "image") && !Contains(t, "video") &&
                             !Contains(t, "audio"))
  {
    var t := Lower(fileType);
    if Contains(t, "pdf") then DocumentIcon
    else if Contains(t, "doc") || Contains(t, "docx") then NoteIcon
    else if Contains(t, "image") then ImageIcon
    else if Contains(t, "video") then VideoIcon
    else if Contains(t, "audio") then AudioIcon
    else ClipIcon
  }

  /**
   * The icon is picked by the first of "pdf", "doc", "image", "video",
   * "audio" that the lower-cased type contains: the `docx` test never
   * decides on its own.
   */
  lemma FileIconFirstMatch(fileType: string)
    ensures var t := Lower(fileType); var r := GetFileIcon(fileType);
      && (r == DocumentIcon <==> Contains(t, "pdf"))
      && (r == NoteIcon <==> !Contains(t, "pdf") && Contains(t, "doc"))
      && (r == ImageIcon <==> !Contains(t, "pdf") && !Contains(t, "doc") && Contains(t, "image"))
      && (r == VideoIcon <==> !Contains(t, "pdf") && !Contains(t, "doc") && !Contains(t, "image") &&
                              Contains(t, "video"))
      && (r == AudioIcon <==> !Contains(t, "pdf") && !Contains(t, "doc") && !Contains(t, "image") &&
                              !Contains(t, "video") && Contains(t, "audio"))
      && (r == ClipIcon <==> !Contains(t, "pdf") && !Contains(t, "doc") && !Contains(t, "image") &&
                             !Contains(t, "video") && !Contains(t, "audio"))
  {
    var t := Lower(fileType);
    if Contains(t, "docx") {
      ContainsPrefix(t, "docx", "doc");
    }
  }

  /** A string that contains `sub` contains every prefix of `sub`; this makes the `docx` test redundant. */
  lemma {:induction false} ContainsPrefix(s: string, sub: string, p: string)
    requires Contains(s, sub) && p <= sub
    ensures Contains(s, p)
    decreases |s|
  {
    if !(sub <= s) {
      ContainsPrefix(s[1..], sub, p);
    }
  }

  /** Upper-case extensions get the same icon: the type is lower-cased first. */
  lemma FileIconIgnoresCase(fileType: string)
    ensures GetFileIcon(Lower(fileType)) == GetFileIcon(fileType)
  {
    LowerIdempotent(fileType);
  }
}
