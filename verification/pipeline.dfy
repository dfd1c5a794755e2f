/**
 The categorical fields of a sales-pipeline opportunity and the stage-driven
 revenue rules: the stage fixes the win probability, the expected revenue is
 the deal size weighted by that probability, and the actual revenue is the
 whole deal when won, nothing when lost and the weighted value otherwise.
 Amounts are exact reals; rounding is applied later, by the record builder.
 */
module Pipeline {

  datatype Region = NorthAmerica | EMEA | APAC | LatinAmerica
  {
    function Name(): string {
      match this
      case NorthAmerica => "North America"
      case EMEA => "EMEA"
      case APAC => "APAC"
      case LatinAmerica => "Latin America"
    }
  }

  datatype Product =
    | EndpointSecurity | CloudSecurity | NetworkSecurity
    | IdentityManagement | ThreatIntelligence | SecurityConsulting
  {
    function Name(): string {
      match this
      case EndpointSecurity => "Endpoint Security"
      case CloudSecurity => "Cloud Security"
      case NetworkSecurity => "Network Security"
      case IdentityManagement => "Identity Management"
      case ThreatIntelligence => "Threat Intelligence"
      case SecurityConsulting => "Security Consulting"
    }
  }

  datatype Channel = DirectSales | VarPartner | MspPartner | Distributor | Online
  {
    function Name(): string {
      match this
      case DirectSales => "Direct Sales"
      case VarPartner => "VAR Partner"
      case MspPartner => "MSP Partner"
      case Distributor => "Distributor"
      case Online => "Online"
    }
  }

  /** The marketing program credited with the opportunity. */
  datatype Program =
    | EmailCampaign | Webinar | TradeShow
    | PartnerReferral | Direct | ContentDownload
  {
    function Name(): string {
      match this
      case EmailCampaign => "Email Campaign"
      case Webinar => "Webinar"
      case TradeShow => "Trade Show"
      case PartnerReferral => "Partner Referral"
      case Direct => "Direct"
      case ContentDownload => "Content Download"
    }
  }

  datatype Stage =
    | Prospecting | Qualification | Proposal | Negotiation
    | ClosedWon | ClosedLost
  {
    predicate IsTerminal() {
      this == ClosedWon || this == ClosedLost
    }

    function Name(): string {
      match this
      case Prospecting => "Prospecting"
      case Qualification => "Qualification"
      case Proposal => "Proposal"
      case Negotiation => "Negotiation"
      case ClosedWon => "Closed Won"
      case ClosedLost => "Closed Lost"
    }
  }

  /** The stages in pipeline order, as the generator lists them. */
  const Stages: seq<Stage> := [Prospecting, Qualification, Proposal, Negotiation, ClosedWon, ClosedLost]

  /** Win probability, in percent, of each open stage, keyed by stage name. */
  const OpenStageProbability: map<string, int> :=
    map["Prospecting" := 20, "Qualification" := 40, "Proposal" := 60, "Negotiation" := 80]

  /** Win probability, in percent, implied by a stage. */
  function Probability(s: Stage): (p: int)
    ensures 0 <= p <= 100
    ensures p == 100 <==> s == ClosedWon
    ensures p == 0 <==> s == ClosedLost
    ensures forall k :: 0 <= k < 4 && Stages[k] == s ==> p == 20 * (k + 1)
  {
    if s == ClosedWon then 100
    else if s == ClosedLost then 0
    else OpenStageProbability[s.Name()]
  }

  /** A percentage as a fraction, `probability / 100`. */
  function Share(percent: int): (f: real)
    ensures 0 <= percent <= 100 ==> 0.0 <= f <= 1.0
    ensures f * 100.0 == percent as real
  {
    percent as real / 100.0
  }

  /** The deal size weighted by the stage's win probability, before rounding. */
  function ExpectedRevenue(s: Stage, deal: real): (r: real)
    ensures deal >= 0.0 ==> 0.0 <= r <= deal
    ensures s == ClosedLost ==> r == 0.0
    ensures s == ClosedWon ==> r == deal
  {
    deal * Share(Probability(s))
  }

  /** Realised (or, for an open stage, proxy) revenue, before rounding. */
  function ActualRevenue(s: Stage, deal: real): (r: real)
    ensures r == ExpectedRevenue(s, deal)
  {
    if s == ClosedWon then deal
    else if s == ClosedLost then 0.0
    else deal * Share(OpenStageProbability[s.Name()])
  }

  /** Along the open part of the pipeline, a later stage has a higher win probability. */
  lemma ProbabilityFollowsPipeline(i: int, j: int)
    requires 0 <= i < j < 4
    ensures Probability(Stages[i]) < Probability(Stages[j])
    ensures Probability(Stages[i]) == 20 * (i + 1)
  {
  }
}
