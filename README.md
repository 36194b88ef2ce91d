# CYFEmailChase: a Dafny model of the rotten-deal workflow core

CYFEmailChase is one scheduled AWS Lambda handler. It lists the open deals of one
Pipedrive pipeline stage, keeps those whose rotten time has passed, fills in a
greeting name, an SMS-ready phone number and an email address on each deal,
notifies the person by email and SMS, and marks the deal lost. This project
models the logic in that handler that is not network or SDK plumbing:

- `Phone`: `formatNumberForAWS`, which rewrites a UK mobile number written as
  "07…" into "+447…" and passes anything else through.
- `Names`: `name.split(' ')` on a single space, and the first name taken from it.
- `RottenFilter`: the `filter` in `findRottenDeals`, over the deals of the
  response's `data` array, with time as an integer and "now" as a parameter.
- `Deals`: the deal object as a class and the three in-place assignments at the
  top of `processDeal` as the method `Deal.Enrich`.
- `LostUpdate` and `Decimal`: the PUT request built by `markDealLost`, whose URL
  carries the deal id in decimal.
- `Common`: the `Option` type used for absent JSON values.

Modelling decisions:

- `rotten_time` is an already-parsed `Option<int>`. `None` stands for a null or
  unparseable timestamp: `moment(null)` is an invalid moment, and `isAfter`
  returns false against it, so such a deal is never kept.
- The source does not guard `person_id`, `phone[0]` or `email[0]`. A missing
  person or an empty list throws a TypeError partway through lines 66-68.
  `Deal.Enrich` models that error path as a `Failed` outcome and keeps the
  assignments already made, rather than requiring the lists to be non-empty.
- The deal's id is a `nat`, rendered in decimal as JavaScript does for integer ids.

## Model

| member | source | states |
|---|---|---|
| `Phone.FormatNumberForAWS` | src/index.js:111-116 | An input starting with "07" becomes a string that starts with "+447", is 2 characters longer and ends with the input minus its "0". Any other input comes back unchanged. No output ever starts with "07". |
| `Phone.DomesticNumberRecovered` | src/index.js:112-113 | For an "07…" input, putting "0" in front of the output after "+44" gives the input back. |
| `Phone.FormatIdempotent` | src/index.js:111-116 | Normalising an already normalised number changes nothing. |
| `Phone.DomesticAndInternationalAgree` | src/index.js:111-116 | "07x" and "+447x" normalise to the same "+447x", so the function is many-to-one. |
| `Phone.FormatExamples` | src/index.js:111-116 | "07123456789" gives "+447123456789". "+447123456789" and "02012345678" are unchanged. |
| `Names.Split` | src/index.js:66 | `split(' ')` gives at least one token and no token contains the separator. Joining the tokens with the separator gives the input back. |
| `Names.SplitJoin` | src/index.js:66 | Splitting a join of at least one separator-free token gives the tokens back, the other half of the round trip. |
| `Names.FirstName` | src/index.js:66 | `split(' ')[0]` is a prefix of the name with no space in it. It is followed by a space unless it is the whole name. |
| `Names.FirstNameOfSingleToken` | src/index.js:66 | A name with no space is its own first name. |
| `Names.FirstNameOfTwoParts` | src/index.js:66 | For "first rest" with a space-free `first`, the first name is `first`. |
| `Names.FirstNameExamples` | src/index.js:66 | "Jane Doe" gives "Jane" and "Madonna" gives "Madonna". |
| `Deals.Deal.constructor` | src/index.js:45-46 | A deal built from a record of the response's `data` array carries exactly that record's fields and no derived fields yet. |
| `Deals.Deal.Enrich` | src/index.js:64-68 | Only `firstName`, `phoneNumber` and `email` change, and the fetched fields keep their values. With a person, `firstName` is the name's first token. With a phone, `phoneNumber` is the normalised value of the first phone entry. With an email too, `email` is the first email entry and the outcome is `Enriched`. The outcome is `Enriched` exactly when the person, a phone and an email are all present. Otherwise it is the error of the first failing line, and the later fields stay unchanged. |
| `RottenFilter.FindRottenDeals` | src/index.js:46 | The result is a subsequence of the fetched deals, so their order is kept. Each fetched deal occurs in it exactly as often as in the input if it is rotten, and not at all otherwise. |
| `RottenFilter.SubsequenceLength` | src/index.js:46 | A subsequence is no longer than the sequence it is drawn from. |
| `RottenFilter.FindRottenDealsLength` | src/index.js:46 | At most as many deals are kept as were fetched. |
| `RottenFilter.FindRottenDealsMembership` | src/index.js:46 | A deal is kept if and only if it was fetched and now is strictly after its rotten time. |
| `RottenFilter.RottingNowIsExcluded` | src/index.js:46 | A deal whose rotten time equals now is not kept: the comparison is strict. |
| `RottenFilter.WithoutRottenTimeIsExcluded` | src/index.js:46 | A deal without a usable rotten time is not kept. |
| `RottenFilter.FindRottenDealsIdempotent` | src/index.js:46 | Filtering the filtered list again at the same time changes nothing. |
| `RottenFilter.FindRottenDealsAppend` | src/index.js:46 | The filter distributes over concatenation: filtering `a + b` gives the filtered `a` followed by the filtered `b`. |
| `RottenFilter.FindRottenDealsMonotone` | src/index.js:46 | What is kept at an earlier time is a subsequence of what is kept at a later time. |
| `Decimal.NatToString` | src/index.js:52 | An id renders as a non-empty digit string with no leading zero. |
| `Decimal.NatToStringRoundTrip` | src/index.js:52 | Reading the rendered id back as a decimal number gives the id. |
| `Decimal.NatToStringInjective` | src/index.js:52 | Two different ids never render the same. |
| `LostUpdate.MarkDealLost` | src/index.js:50-61 | The request is a JSON PUT with status "lost" and lost_reason "Automated: deal rotting". Its URL parses back to the deal's own id. |
| `LostUpdate.DealUrlAddressesDeal` | src/index.js:52 | The deal URL built from an id and any API token parses back to that id. |
| `LostUpdate.DistinctDealsDistinctUrls` | src/index.js:52 | Deals with different ids are updated at different URLs. |
| `LostUpdate.BodyIndependentOfDeal` | src/index.js:57-60 | The update body is the same for every deal. |

## Left out

- HTTP transport to Pipedrive (src/index.js:41-44, 52-61). Only the list response's `data` array is modelled, as the input of `FindRottenDeals`. Only the request `markDealLost` builds is modelled, not its sending or its response. JSON serialisation of the body is modelled by the body's two field values only.
- The fixed list query (limit 10, start 0, one user, one stage, status open) is not modelled. Deals beyond the first page of ten are never seen, and the `status=open` selection happens on the server.
- The `moment` date parsing of `rotten_time` (src/index.js:46). Timestamps are already-parsed integers or `None`, and the wall clock is the parameter `now`. The source calls `moment()` once per deal, so each deal is compared with its own clock reading. Those readings only move forward during the filter, and the model merges them into one `now`.
- Email and SMS dispatch through SES and SNS (src/index.js:82-109, 118-133), the AWS client configuration (src/index.js:17-23), and the Handlebars templates read from files (src/index.js:13-15). These are foreign SDK calls and file I/O.
- Promise composition in `exports.handler` and `processDeal` (src/index.js:25-38, 70-79), and console logging. This is asynchronous orchestration. Two consequences stay outside the model. The `map` callback does not return `processDeal`'s promise, so `Promise.all` does not wait for the deals. A TypeError thrown during enrichment happens before `processDeal`'s `catch` is attached, so it rejects the whole handler instead of staying with one deal. `Deal.Enrich` models only where that throw leaves the deal.
- `FindRottenDeals`: the source filters `value.data` with no guard (src/index.js:46). When the list response has no `data` array (it is `null` or missing), that line throws a TypeError and the handler ends with `callback(error)` (src/index.js:37). The model's input is always a sequence of deals, so this error path is not modelled. A design that treats a missing `data` field as an empty list, with a successful zero-deal run, differs from the source here.
- `Deals.Deal.Enrich`: the model types the person's `name`, each phone and email entry's `value`, and the `phone` and `email` fields themselves as strings and sequences. In the source, a `name` that is not a string throws at src/index.js:66. A `phone` or `email` that is not an array throws at src/index.js:67-68. A `phone[0].value` that is not a string throws at `number.startsWith` (src/index.js:112). None of these cases can arise in the model.
- `Decimal.NatToString`: JavaScript renders integers of 10^21 and above in exponent form. Pipedrive ids are far below that, so the model always uses plain decimal.
