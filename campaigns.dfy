/** The campaign overview (`app/dashboard/kampagnen/page.tsx`): the status
    badge of a campaign, the three totals above the table and the open and
    click rates of each row. */
module Campaigns {
  import opened Base
  import opened Text
  import opened Types

  /** `statusVariant` of the campaign table. */
  function CampaignStatusVariant(status: string): (v: BadgeVariant)
    ensures v == Info <==> status == "scheduled"
    ensures v == Warning <==> status == "sending"
    ensures v == Success <==> status == "sent"
    ensures v == Danger <==> status == "cancelled"
    ensures v == Default <==> status !in {"scheduled", "sending", "sent", "cancelled"}
  {
    match status
    case "draft" => Default
    case "scheduled" => Info
    case "sending" => Warning
    case "sent" => Success
    case "cancelled" => Danger
    case _ => Default
  }

  /** Each of the five statuses gets its own variant, except that a draft
      shares the neutral one with unknown statuses. */
  lemma CampaignStatusVariantOfStatus(st: CampaignStatus)
    ensures CampaignStatusVariant(CampaignStatusName(st)) == match st
      case Draft => Default
      case Scheduled => Info
      case Sending => Warning
      case Sent => Success
      case CampaignCancelled => Danger
  {
  }

  // ---------------------------------------------------------------------
  // Percentages

  /** `Math.round((part / total) * 100)` computed exactly: the integer
      nearest to the percentage, halves rounded up. */
  function RoundedPercent(part: int, total: int): (k: int)
    requires total != 0
    ensures (k as real) - 0.5 <= (part as real / total as real) * 100.0 < (k as real) + 0.5
  {
    ((part as real / total as real) * 100.0 + 0.5).Floor
  }

  /** A part of a positive total rounds to a percentage from 0 to 100. */
  lemma RoundedPercentBounds(part: int, total: int)
    requires 0 <= part <= total && total > 0
    ensures 0 <= RoundedPercent(part, total) <= 100
  {
    var x := part as real / total as real;
    assert 0.0 <= x <= 1.0 by {
      assert x * total as real == part as real;
    }
  }

  /** `formatPercent`: `"0%"` for a zero total, otherwise the rounded
      percentage followed by `%`. */
  function FormatPercent(part: int, total: int): (r: string)
    ensures total == 0 ==> r == "0%"
    ensures total != 0 ==> r == IntToString(RoundedPercent(part, total)) + "%"
  {
    if total == 0 then "0%" else IntToString(RoundedPercent(part, total)) + "%"
  }

  /** The open rate shown in a campaign's row: only when something was sent. */
  function OpenRate(c: Campaign): (r: Option<string>)
    ensures r.Some? <==> c.total_sent > 0
    ensures r.Some? ==> r.value == FormatPercent(c.total_opened, c.total_sent)
  {
    if c.total_sent > 0 then Some(FormatPercent(c.total_opened, c.total_sent)) else None
  }

  /** The click rate shown in a campaign's row: only when something was sent. */
  function ClickRate(c: Campaign): (r: Option<string>)
    ensures r.Some? <==> c.total_sent > 0
    ensures r.Some? ==> r.value == FormatPercent(c.total_clicked, c.total_sent)
  {
    if c.total_sent > 0 then Some(FormatPercent(c.total_clicked, c.total_sent)) else None
  }

  /** With an opened counter that does not exceed the sent count, the shown
      open rate is a whole percentage from 0 to 100. */
  lemma ShownRateIsPercentage(c: Campaign)
    requires c.total_sent > 0
    requires 0 <= c.total_opened <= c.total_sent
    ensures exists k :: 0 <= k <= 100 && OpenRate(c) == Some(IntToString(k) + "%")
  {
    RoundedPercentBounds(c.total_opened, c.total_sent);
    var k := RoundedPercent(c.total_opened, c.total_sent);
    assert OpenRate(c) == Some(IntToString(k) + "%");
  }

  // ---------------------------------------------------------------------
  // Totals

  function IsSent(c: Campaign): bool
  {
    c.status == Sent
  }

  function Opened(c: Campaign): int
  {
    c.total_opened
  }

  function Clicked(c: Campaign): int
  {
    c.total_clicked
  }

  /** `totalSent`: the number of campaigns whose status is `sent` (not the
      number of e-mails sent), 0 while the list is not loaded. */
  function TotalSent(campaigns: Option<seq<Campaign>>): (n: nat)
    ensures campaigns.None? ==> n == 0
    ensures campaigns.Some? ==> n <= |campaigns.value|
  {
    match campaigns
    case None => 0
    case Some(cs) => Count(cs, IsSent)
  }

  /** `totalOpened`: the opened counters summed over all campaigns. */
  function TotalOpened(campaigns: Option<seq<Campaign>>): (n: int)
    ensures campaigns.None? ==> n == 0
  {
    match campaigns
    case None => 0
    case Some(cs) => SumOf(cs, Opened)
  }

  /** `totalClicked`: the clicked counters summed over all campaigns. */
  function TotalClicked(campaigns: Option<seq<Campaign>>): (n: int)
    ensures campaigns.None? ==> n == 0
  {
    match campaigns
    case None => 0
    case Some(cs) => SumOf(cs, Clicked)
  }

  /** One more campaign adds its own counters to the totals, and one to the
      sent count exactly when its status is `sent`. */
  lemma TotalsAppend(cs: seq<Campaign>, c: Campaign)
    ensures TotalSent(Some(cs + [c])) == TotalSent(Some(cs)) + (if c.status == Sent then 1 else 0)
    ensures TotalOpened(Some(cs + [c])) == TotalOpened(Some(cs)) + c.total_opened
    ensures TotalClicked(Some(cs + [c])) == TotalClicked(Some(cs)) + c.total_clicked
  {
    FilterSnoc(cs, c, IsSent);
    SumOfConcat(cs, [c], Opened);
    SumOfConcat(cs, [c], Clicked);
    assert [c][..0] == [];
  }

  /** When no campaign has more clicks than opens, the clicked total does not
      exceed the opened total. */
  lemma ClickedAtMostOpened(cs: seq<Campaign>)
    requires forall i :: 0 <= i < |cs| ==> cs[i].total_clicked <= cs[i].total_opened
    ensures TotalClicked(Some(cs)) <= TotalOpened(Some(cs))
  {
    SumOfMonotone(cs, Clicked, Opened);
  }
}
