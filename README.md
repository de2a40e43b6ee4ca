# KBank web client: a verified model of its deterministic core

The client `kasikorn.js` drives a bank's web portal, which has no API: it
logs in through a cross-site token handshake, scrapes account lists out of
HTML, and downloads statements as CSV. Most of the file is network and
cookie plumbing. This project models the deterministic logic beneath it in
Dafny and proves what that logic promises:

- `Text`: `cleanNumber` (dashes removed) and the canonical account number
  `DDD-D-DDDDD-D`. Cleaning is proved to remove exactly the dashes, to keep
  the other characters in order, and to be idempotent. On canonical
  numbers it is proved reversible.
- `Extraction`: `extract`, `extractAll` and `groupRewriter`, plus the
  destructuring `let [token] = extract(...)`. A match is given as the
  regular-expression engine reports it: the whole text, the captures, and
  the named groups.
- `Http`: `_submit` shapes each request. Redirects are never followed.
  Query data becomes `?` plus the encoded query. Form data makes the
  request a POST, with the form copied field by field in a loop.
- `Statement`: `_parseStatement`. Rows with fewer properties than the
  export has columns are skipped. Every placeholder property (a header
  starting with `ignored`) is deleted in place, in a nested loop. The
  method is proved equal to a specification function, and the filter's
  properties are proved about that function.
- `Bank`: the class `KBank`. It has credential validation, the login
  handshake (302, 200, 302) and the logout handshake (200, 302), the
  `_accounts` cache, the date-range statement form, and the lookup and
  two-step download of today's statement.

The network is a parameter. `replies[k]` is the server's answer to the
k-th request a call sends. A call whose request finds no reply left throws
`NetworkError`, as an uncaught transport failure would. Each call also
returns the requests it sent, so contracts can state which requests are
sent and which are not.

The model follows the code as written, including these behaviours:

- A login or logout page without a token ends in a thrown `TypeError`,
  because `undefined` is destructured. It does not end in `false`.
- `getTodayStatement` throws a `TypeError` when the account listing it
  triggers gets a non-200 reply. The cache stays unset and `.find` is then
  called on `undefined`.
- An empty cached list counts as set, so it is not fetched again.
- For patterns with named groups, the `extract` as written returns an
  empty object. See Findings.

## Model

| member | source | states |
|---|---|---|
| Text.CleanNumber | kasikorn.js:25 | the result contains no `-` and is no longer than the input |
| Text.CleanNumberAppend | kasikorn.js:25 | cleaning a concatenation is the concatenation of the cleaned parts, so the kept characters stay in their original order |
| Text.CleanNumberFixed | kasikorn.js:25 | a string without `-` is returned unchanged |
| Text.CleanNumberIdempotent | kasikorn.js:25 | cleaning twice equals cleaning once |
| Text.CleanNumberCounts | kasikorn.js:25 | every character other than `-` keeps its number of occurrences, no `-` remains, and the length drops by the number of dashes |
| Text.Canonical | kasikorn.js:21-22 | ten digits laid out as `DDD-D-DDDDD-D` form a canonical account number, the shape both scraping patterns accept |
| Text.CleanCanonical | kasikorn.js:21-25 | cleaning a canonical number leaves exactly its ten digits, in order |
| Text.CanonicalOfClean | kasikorn.js:21-25 | a canonical number is rebuilt from its cleaned digits |
| Text.CleanOfCanonical | kasikorn.js:21-25 | cleaning the canonical form of ten digits gives those digits back |
| Text.CleanCanonicalInjective | kasikorn.js:21-25 | two canonical numbers with the same cleaned digits are equal |
| Extraction.Extract | kasikorn.js:29-37 | no match gives undefined; without named groups the result is the captures without the whole match (`slice(1)`), element by element; with named groups it is the groups record |
| Extraction.ExtractAsWrittenAgreesWithoutGroups | kasikorn.js:29-37 | for every pattern without named groups, including both token patterns, the as-written `extract` equals the intended one |
| Extraction.ExtractAsWrittenLosesGroups | kasikorn.js:27-33 | as written, a named-group match without a group called `groups` yields an empty object, unlike the intended result |
| Extraction.ExtractAsWrittenCounterexample | kasikorn.js:27-33 | the concrete input `/(?<id>[0-9]+)/` on "42": as written `{}`, intended `{ id: "42" }` |
| Extraction.ExtractNamedRoundTrip | kasikorn.js:29-33 | the intended `extract` returns each named group's captured value under its name |
| Extraction.DestructureFirst | kasikorn.js:156 | `let [x] = v` throws a TypeError exactly when `v` is undefined or a plain object; otherwise it gives the first element, or undefined for an empty array |
| Extraction.Token | kasikorn.js:154-156 | a page without a token match throws a TypeError; a page with one yields the first capture of its first match |
| Extraction.ExtractAll | kasikorn.js:27-43 | one record per match, in document order, each a fresh copy of the match's named groups made by `groupRewriter`, and an empty object for a match without named groups |
| Extraction.TokenAsWritten | kasikorn.js:29-37 | for every page, destructuring the as-written `extract` ends exactly as destructuring the intended one, so the login and logout handshakes behave as the code is written |
| Extraction.ExtractAllAppend | kasikorn.js:39-43 | extracting from two stretches of a page concatenates the results, so document order is kept |
| Http.Submit | kasikorn.js:83-104 | redirects are never followed; query data appends `?` and the encoded query to the address; the request is a POST exactly when form data is given; the form holds the data's fields in order |
| Http.SplitQueryRoundTrip | kasikorn.js:91-92 | for an address without `?`, splitting the request URL at its first `?` gives back the address and the encoded query |
| Statement.Strip | kasikorn.js:211-213 | a stripped row has no placeholder header; each of its fields comes from the row; every non-placeholder field of the row is kept |
| Statement.StripAppend | kasikorn.js:211-213 | stripping keeps the remaining fields in their relative order |
| Statement.StripClean | kasikorn.js:211-213 | a row without placeholders is left unchanged |
| Statement.Parse | kasikorn.js:202-216 | at most one output row per input row, and no output row has a placeholder header |
| Statement.ParseAppend | kasikorn.js:206-215 | the rows are handled one at a time: the output for a stream in two parts is the output for the first part followed by the output for the second |
| Statement.ParseComplete | kasikorn.js:209-214 | when every row has at least the header count of properties, each row is yielded, stripped, in its own position |
| Statement.ParseShort | kasikorn.js:209 | rows with fewer properties than the header count are never yielded |
| Statement.DeletePlaceholders | kasikorn.js:210-213 | the in-place delete loop over the row's headers leaves exactly `Strip` of the row: no placeholder header, other fields kept in order |
| Statement.ParseStatement | kasikorn.js:202-216 | the skip loop and the in-place delete loop produce exactly `Parse`: no short rows, no placeholder headers, other fields and row order kept |
| Statement.StatementRowShape | kasikorn.js:46-55 | a complete date-range row leaves with the seven named columns, in export order |
| Statement.TodayRowShape | kasikorn.js:57-65 | a complete row of today's export leaves with the five named columns, in export order |
| Bank.AccountFieldShape | kasikorn.js:221 | for a canonical number, `selAccountNo` is one bar, the ten digits and six bars, and the number can be read back from it |
| Bank.AccountFieldInjective | kasikorn.js:221 | different canonical numbers give different `selAccountNo` values |
| Bank.StatementFormMonths | kasikorn.js:223-226 | the months sent are `getMonth() + 1`, so they lie in 1..12 |
| Bank.LogoutQueryText | kasikorn.js:176-179 | the logout query is `action=retailuser&txtParam=` followed by the token, or by nothing when the token is undefined |
| Bank.FindAccount | kasikorn.js:240 | the index found is that of the first cached account whose `number` is `===` the argument (a string equal to it, or `undefined` for an account without one); none is found exactly when no account matches |
| Bank.KBank.Create | kasikorn.js:69-72 | construction succeeds exactly when both credentials are non-empty strings, and otherwise throws a RangeError; a new client stores them and has no account cache |
| Bank.KBank.SetCredential | kasikorn.js:106-114 | the call succeeds exactly when both arguments are non-empty strings; otherwise it throws a RangeError and leaves both fields unchanged; on success both fields are set; non-empty credentials stay non-empty |
| Bank.KBank.Login | kasikorn.js:140-163 | the result is true exactly when the replies are 302, 200 with a token, then 302; a wrong status returns false with no further request; a bridge page without a token throws a TypeError and the third request is never sent; each request's address, method and form |
| Bank.KBank.Logout | kasikorn.js:165-182 | the result is true exactly when the replies are 200 with a token, then 302; a non-200 first reply returns false with no second request; a page without a token throws a TypeError; both requests' addresses and queries |
| Bank.KBank.GetAccounts | kasikorn.js:184-190 | on a 200 reply the cache is overwritten with the scraped accounts, which are returned; on any other status it returns false and the cache is unchanged |
| Bank.KBank.GetStatement | kasikorn.js:218-234 | a `num` that is not a string throws a TypeError from `cleanNumber` and sends nothing; otherwise sends one POST with `sa_download`, `selAccountNo` (one bar, `cleanNumber(num)`, six bars), the days, 1-based months and years of both dates, and `period: '3'`; a non-200 reply yields no rows; a 200 reply yields `Parse` of the export with eight columns |
| Bank.KBank.GetTodayStatement | kasikorn.js:236-258 | fills the cache only when it is unset; uses the `id` of the first cached account whose number is `===` the argument; an unknown number, or a `num` no account's number can equal, yields nothing and sends neither the detail nor the download request; a failed listing throws a TypeError; otherwise detail then download, both expected 200, with the download's rows passed through `Parse` with seven columns |
| Bank.KBank.DownloadToday | kasikorn.js:242-257 | once the account is known: the detail request is always sent, the download request exactly after a 200, with the account `id` and the right `action`; missing replies throw, a non-200 at either step yields no rows, two 200s yield `Parse` of the download with seven columns |

## Findings

| source | as written | input that shows it | evidently intended | confidence | as-written member | corrected member |
|---|---|---|---|---|---|---|
| kasikorn.js:32-33 | `extract` passes `mat.groups` to `groupRewriter`, which copies that object's own `groups` property, so a match of a named-group pattern becomes `{}` | `extract("42", /(?<id>[0-9]+)/)` returns `{}` | `groupRewriter(mat)`, as `extractAll` calls it, giving `{ id: "42" }` | high; not executed | Extraction.ExtractAsWritten (shown by Extraction.ExtractAsWrittenCounterexample and Extraction.ExtractAsWrittenLosesGroups) | Extraction.Extract (proved by Extraction.ExtractNamedRoundTrip; used by Extraction.Token) |

The source only calls `extract` with the two token patterns. Neither has
named groups, so the defect has no effect there
(`Extraction.ExtractAsWrittenAgreesWithoutGroups`).

## Left out

- HTTP transport, cookie jars and redirect handling are not modelled. They are replaced by the caller-supplied replies. A missing reply stands for any transport failure.
- `setCookiePath` and `_wrapFetch` are left out: file-system checks, file creation and cookie stores are I/O. The constructor's `cookiepath` argument is dropped for the same reason.
- `isLogin` and `getBalances` are not part of this model. They are single-request scrapes outside the modelled core.
- Http.Submit: the query string is written as `key=value` pairs joined by `&`, without the percent-escaping of `querystring.stringify`. The multipart encoding of the form is not modelled either. The form is kept as its list of fields.
- The CSV decoder is an external library and is not modelled. Its quoting, delimiters and `skipLines: 7` are left out. Its output is given as decoded rows, each an object from header to cell.
- The regular-expression engine is not modelled. Replies carry the matches of their call site's pattern in document order. `data.match` of a non-global pattern is taken to be the first of these.
- Async generators, `await` and streaming are modelled as returned lists. Laziness and back-pressure are not captured. An error raised while reading a body (`resp.text()`) is not modelled either.
- `Date` objects are modelled as the numbers their getters return: day, zero-based month and year.
- GetStatement: an object argument with a `replace` method of its own is not modelled; every argument other than a string counts as one without it, so `cleanNumber` throws a TypeError.
- Login and logout model the token as the first capture of the first match. What the form encoder would do with an `undefined` token is not modelled: the field is kept with an `Undefined` value.
