/**
 * `markDealLost`: the partial update that closes a deal as lost, sent as a PUT
 * to the deal's own URL with a constant JSON body.
 */
module LostUpdate {
  import opened Common
  import Deals
  import Decimal

  const BASE_URL := "https://api.pipedrive.com/v1/"
  const DEALS_PATH := "deals/"
  const TOKEN_QUERY := "?api_token="
  const LOST_STATUS := "lost"
  const LOST_REASON := "Automated: deal rotting"

  /** The JSON body `{status, lost_reason}`. */
  datatype LostBody = LostBody(status: string, lostReason: string)

  datatype UpdateRequest = UpdateRequest(httpMethod: string, url: string, contentType: string, body: LostBody)

  /** The URL of one deal: base URL, `deals/`, the decimal id, then the API token. */
  function DealUrl(id: nat, apiToken: string): (url: string) {
    BASE_URL + DEALS_PATH + Decimal.NatToString(id) + TOKEN_QUERY + apiToken
  }

  /** The request `markDealLost(deal)` sends. */
  function MarkDealLost(deal: Deals.Deal, apiToken: string): (request: UpdateRequest)
    reads deal
    ensures request.httpMethod == "PUT" && request.contentType == "application/json"
    ensures request.body.status == LOST_STATUS && request.body.lostReason == LOST_REASON
    ensures DealIdOfUrl(request.url) == Some(deal.id)
  {
    DealUrlAddressesDeal(deal.id, apiToken);
    UpdateRequest("PUT", DealUrl(deal.id, apiToken), "application/json", LostBody(LOST_STATUS, LOST_REASON))
  }

  /** The length of the longest all-digit prefix of `s`. */
  function DigitRun(s: string): (k: nat)
    ensures k <= |s| && Decimal.AllDigits(s[..k])
    ensures k < |s| ==> !Decimal.IsDigit(s[k])
  {
    if s == [] || !Decimal.IsDigit(s[0]) then 0
    else
      var k := 1 + DigitRun(s[1..]);
      assert s[..k] == [s[0]] + s[1..][..k - 1];
      k
  }

  /** Reads the deal id back out of a deal URL; None for any other URL. */
  function DealIdOfUrl(url: string): (id: Option<nat>) {
    var prefix := BASE_URL + DEALS_PATH;
    if |url| < |prefix| || url[..|prefix|] != prefix then None
    else
      var rest := url[|prefix|..];
      var k := DigitRun(rest);
      if 0 < k < |rest| && rest[k] == '?' then Some(Decimal.StringToNat(rest[..k])) else None
  }

  /** The digit run of a numeral followed by a non-digit is the numeral. */
  lemma {:induction false} DigitRunOfNumeral(digits: string, tail: string)
    requires Decimal.AllDigits(digits)
    requires tail != [] && !Decimal.IsDigit(tail[0])
    ensures DigitRun(digits + tail) == |digits|
  {
    if digits != [] {
      assert (digits + tail)[1..] == digits[1..] + tail;
      DigitRunOfNumeral(digits[1..], tail);
    }
  }

  /** Every deal URL names exactly the deal it was built for. */
  lemma DealUrlAddressesDeal(id: nat, apiToken: string)
    ensures DealIdOfUrl(DealUrl(id, apiToken)) == Some(id)
  {
    var prefix := BASE_URL + DEALS_PATH;
    var digits := Decimal.NatToString(id);
    var url := DealUrl(id, apiToken);
    assert url == prefix + (digits + (TOKEN_QUERY + apiToken));
    assert url[|prefix|..] == digits + (TOKEN_QUERY + apiToken);
    DigitRunOfNumeral(digits, TOKEN_QUERY + apiToken);
    assert url[|prefix|..][..|digits|] == digits;
    Decimal.NatToStringRoundTrip(id);
  }

  /** Deals with different ids are updated at different URLs. */
  lemma DistinctDealsDistinctUrls(d1: Deals.Deal, d2: Deals.Deal, apiToken: string)
    requires d1.id != d2.id
    ensures MarkDealLost(d1, apiToken).url != MarkDealLost(d2, apiToken).url
  {
  }

  /** The body is the same for every deal: nothing of the deal goes into it. */
  lemma BodyIndependentOfDeal(d1: Deals.Deal, d2: Deals.Deal, apiToken: string)
    ensures MarkDealLost(d1, apiToken).body == MarkDealLost(d2, apiToken).body
  {
  }
}
