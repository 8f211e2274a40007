# Geolocation record pruner — Dafny model

The system is a one-file GitHub action (`index.js`) that removes stale
geolocation records of a domain from a Route 53 hosted zone. It lists the
zone's record sets starting at the domain name, page by page, keeps those whose
name is exactly the domain, selects the type-A geolocation records that alias
the given load balancer and are not the default (country `*`) record, and sends
one `DELETE` change batch per selected record.

This project models the pure logic of that run:

- `Inputs` — the lower-casing of `domain-name` and `load-balancer-dns`; the zone
  id passes through verbatim.
- `Selection` — the filter callback of `deleteRecords`, including the TypeError
  it throws when it reads `GeoLocation` of a record that has none, and the filter
  built on it.
- `Listing` — the paginated do-while loop of `getRecordsByDomainName`, with the
  provider's answers given up front as a finite sequence of responses (a page or
  a rejection), and the exact-name filter after it. The list requests the loop
  sends are modelled too: every one keeps the start cursor (`domainName`, `A`)
  and only copies the last page's `NextRecordName`/`NextRecordType` into it.
- `Deletion` — the change request of `deleteRecord` and one request per
  selected record.
- `Pruner` — the run end to end, up to the point where requests are sent.
- `Records`, `Wrappers`, `Subsequences` — the record datatype, `Option`/`Result`,
  and order-preserving subsequences.

JavaScript truthiness of an optional string is "present and not empty"
(`Records.Truthy`); an object such as `AliasTarget` is truthy when present.

Two behaviours of `index.js` differ from what a reader of the action's purpose
might expect; the model follows `index.js`:

- The loop stops after the first page that lacks `NextRecordName` OR
  `NextRecordType` (the condition at line 61 is a conjunction), not only when
  both are absent.
- Selection is not total. A type-A record without `GeoLocation` makes the
  callback throw when its name is the domain (line 11) or when its alias target
  is the load balancer (line 12), and the throw aborts the whole filter. After
  the name filter only the first case can arise, so a domain whose type-A record
  has no geolocation (a plain alias record) makes the run fail instead of
  finding nothing to delete.

## Model

| member | source | states |
|---|---|---|
| Inputs.ToLower | index.js:73-74 | the lower-cased string has no upper-case ASCII letter and equals the input up to case |
| Inputs.ToLowerIdentifiesCase | index.js:73-74 | two inputs normalise to the same string exactly when they differ only in letter case |
| Inputs.Normalise | index.js:72-74 | the zone id is kept verbatim; domain and load-balancer DNS become lower case and otherwise equal to the inputs |
| Inputs.NormaliseIdempotent | index.js:72-74 | normalising twice gives the same inputs as normalising once |
| Selection.KeepRecord | index.js:10-14 | the callback throws exactly for a type-A record lacking GeoLocation whose name is the domain or whose alias is the load balancer; otherwise it keeps a record exactly when it is type A, aliases the load balancer, has a non-empty continent or country code and is not the default record |
| Selection.DefaultNeverSelected | index.js:11-13 | a type-A record named after the domain with country code `*` is never kept, whatever its alias target or continent code |
| Selection.Select | index.js:10-14 | the filter fails exactly when some record makes the callback throw, reporting the first such record; otherwise its result is an order-preserving subsequence of the input holding only candidates and every candidate as often as the input does |
| Selection.SelectIdempotent | index.js:10-14 | filtering the selected records again selects all of them |
| Selection.NoneThrows | index.js:10-14 | the filter callback throws on no record of a list exactly when the first throwing index is past its end |
| Listing.Cutoff | index.js:51-61 | the index of the first response after which the loop stops: every earlier response is a page with both cursor fields truthy |
| Listing.WithName | index.js:62-63 | the result is an order-preserving subsequence of the accumulated records, every record in it has exactly the domain name, and every record with that name is kept as often as it was fetched |
| Listing.Accumulate | index.js:49-61 | the loop sends one request per page up to and including the first page lacking a cursor field and none after it; each request keeps the start cursor and carries the previous page's cursor; the accumulated list is the in-order concatenation of those pages; a rejection, or running out of responses before that page, is an error |
| Listing.FetchRecords | index.js:43-64 | the same requests, errors and accumulated records as the loop, and as result the accumulated records with exactly the domain's name |
| Deletion.DeleteRequest | index.js:28-39 | the request carries the zone id verbatim and deletes exactly the given record, unchanged |
| Deletion.DeleteRequestUnique | index.js:29-39 | any request that deletes a single record is the request `deleteRecord` builds for it: one change, action DELETE |
| Deletion.DeleteRequests | index.js:24 | one request per selected record, in order, each for the given zone and deleting that record |
| Deletion.DeleteRequestsRoundTrip | index.js:16-24 | reading back what the built requests delete gives the selected list itself, so an empty selection yields no request |
| Pruner.Prune | index.js:5-24 | end to end: the run fails with a fetch error exactly when the listing is rejected or the responses end before the last page; after a complete listing it succeeds exactly when no record named after the lower-cased domain makes the filter callback throw, and otherwise fails naming the first such record; on success every request uses the verbatim zone id and deletes one record, and the deleted records are, in fetch order, exactly the fetched candidates named after the lower-cased domain, so nothing to delete means success with no request |
| Pruner.NameFilterThenSelect | index.js:7-14 | the name filter followed by selection keeps, in fetch order, exactly the fetched candidates named after the domain, each as often as fetched, and no record more often than fetched |
| Pruner.ScenarioNameFilter | index.js:62-63 | of a default record, a European record and a record of a neighbouring name, the name filter drops only the neighbour |
| Pruner.ScenarioSelection | index.js:10-14 | of the default and the European record only the European one is selected for its load balancer, and neither for another load balancer |

## Left out

- Construction of the AWS SDK client and its region (index.js:1-2): library state.
- The `listResourceRecordSets` and `changeResourceRecordSets` calls and the
  callback-to-Promise wrapper (index.js:40, 52-57): network I/O. The provider's
  answers are an input sequence; whether the provider honours `NextRecordName`
  is not visible in this code, so termination comes from the finite sequence.
  `ResponsesExhausted` is the case where every given response carried both
  cursor fields, so the loop would ask for another page, but the given responses
  end before a page without a cursor arrives.
- `Promise.all` over the delete calls (index.js:24): concurrency, partial
  deletion and completion order are not modelled; the model stops at the list of
  requests.
- Reading the inputs with `core.getInput`, its `required` checks, `console.log`
  output and `process.exit(1)` (index.js:72-82): environment and process I/O.
- Inputs.ToLower: lower-cases ASCII letters only; JavaScript's `toLowerCase`
  also maps non-ASCII letters by the Unicode case tables.
- Fields of a record set other than those listed in `Records` (health check,
  failover, weight, region and so on) are not modelled; they would be carried
  through unchanged like `ttl` and `resourceRecords`.
