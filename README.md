# Campaign frames: registry and client decisions

This project models the core of a small web application that sells "campaigns".
A campaign is a named photo-frame overlay. An organizer creates one and pays for it once.
After that, anyone can open it, put a photo under the frame and download or share the result.

Two parts are modelled:

- **The server's campaign registry** (`server.ts`). This is one table from campaign id to
  `{name, frame_image, status, created_at}`, plus the five route handlers that read and change it.
  `registry.dfy` holds the class `Registry.CampaignStore`, whose field `campaigns` is a
  `map<string, Campaign>`, and one method per route:
  - create inserts a `pending` row and asks the payment provider for a checkout;
  - list returns the `approved` rows, newest first;
  - get returns one row, and force-approves it when `force_approve=true`;
  - delete removes a row, gated by the admin password;
  - the payment webhook approves the row a confirmed payment names.

  Table updates are functions (`Approve`, map update, map removal). The handlers are proved
  against them, and every handler keeps `NeverUnapproves`: no row goes back from approved to
  pending, and surviving rows keep their name, frame and creation time.
- **The client's decisions** (`src/App.tsx`), in `client.dfy`:
  - which campaign the page fetches at start-up, read from the query string;
  - which view the page then shows (class `Client.Page` holds the view and the open campaign);
  - the download file name;
  - the share link and text;
  - the checks before a campaign is submitted or a frame file is accepted;
  - the delete guard.

`text.dfy` gives JavaScript's meaning to white space (`\s`, `trim`), `includes`, number
rendering and ASCII lower-casing. `query.dfy` models the part of `URLSearchParams` and
`location.search` the page relies on. `integration.dfy` connects the two sides:
- the URLs the server and the share buttons write are read back by the start-up code as intended;
- a paid campaign ends up in the public list, through the redirect, or through the webhook with the
  redirect before it, after it or never, whatever other campaigns the table holds;
- the delete button reports success exactly when the server accepted the password.

The clock (`Date.now()`, the database's `CURRENT_TIMESTAMP`), the environment (`MP_ACCESS_TOKEN`,
`APP_URL`), request headers, and the payment provider's answers are all parameters. Request
fields, environment variables and headers are strings, and `""` stands for "absent". JavaScript
treats `undefined` and `""` alike in every test the code makes.

Where the informal lifecycle description (pending, then approved, then deleted) and the code
differ, the model follows the code. Delete removes a row in any status, pending ones included.
A `GET` with `force_approve=true` approves a row without any payment check.

## Model

| member | source | states |
|---|---|---|
| `Registry.CampaignStore.Create` | server.ts:46-92 | missing name or frame: 400 and table unchanged; missing token: 500 before any insert; an id already taken in that millisecond: 500 and no insert; otherwise exactly one `pending` row under `camp-<now>` is added before the provider is asked, so it stays when the provider fails; the preference sent carries that id as external reference and in the success URL |
| `Registry.CampaignStore.ListApproved` | server.ts:94-101 | the result lists every approved row exactly once, no other row, each with its own name, ordered by creation time, newest first |
| `Registry.CampaignStore.Get` | server.ts:103-122 | with `force_approve` exactly `"true"` the row (if any) becomes approved and nothing else changes; the reply is the row after the update, or 404 exactly when the id was unknown, and no row is created |
| `Registry.CampaignStore.Delete` | server.ts:124-138 | a password other than `914614` gives 401 and leaves the table unchanged; the right one removes the row and answers success even when the id was absent |
| `Registry.CampaignStore.Webhook` | server.ts:140-159 | always answers 200; approves `external_reference` only for a `payment` notification with an id, a configured token, a successful lookup, status `approved` and a non-empty reference |
| `Registry.Approve` | server.ts:110 | approving keeps the set of ids, sets the named row's status to approved and changes no other field or row |
| `Registry.ApproveIdempotent` | server.ts:151 | approving a row twice is the same as approving it once |
| `Registry.ApproveCommutes` | server.ts:150-152 | two approvals commute, so webhook and redirect may interleave in any order |
| `Registry.ApproveNeverUnapproves` | server.ts:110 | an approval never turns an approved row back to pending nor alters name, frame or creation time |
| `Registry.InsertNewestFirst` | server.ts:96 | inserting an id into a newest-first sequence keeps it newest-first, adds exactly that id, and keeps the ids distinct |
| `Registry.ListingLifecycle` | server.ts:96 | a freshly inserted pending row is not listed, approving it lists it, deleting a row unlists it |
| `Registry.CampaignIdInjective` | server.ts:55 | `camp-<millis>` ids are equal exactly when the creation times are |
| `Registry.BaseUrlFallback` | server.ts:58-60 | without `APP_URL` and `Origin` the base is `http://host` exactly when `localhost` occurs in the host, and `https://host` otherwise |
| `Registry.BaseUrlPrefersConfigured` | server.ts:60 | a set `APP_URL` wins, else a set `Origin`; the base is never empty |
| `Text.IncludesIffOccurs` | server.ts:59 | the scanning `includes` is true exactly when the substring occurs at some position |
| `Text.DecimalRoundTrip` | server.ts:55 | the decimal rendering of a number is a non-empty digit string whose value is that number |
| `Text.DecimalInjective` | server.ts:55 | two numbers render to the same digits exactly when they are equal |
| `Text.TrimEmptyIffAllSpace` | src/App.tsx:197 | `trim()` yields the empty string exactly when every character is white space |
| `Text.LowerKeepsNoSpaceAndIsIdempotent` | src/App.tsx:357 | lower-casing adds no white space and lower-casing twice equals once |
| `Query.Get` | src/App.tsx:43-45 | `get` finds a value exactly when some pair has that name, and the value is that of the first such pair |
| `Query.IndexOf` | src/App.tsx:42 | the index is the first occurrence of the separator, or the length when there is none |
| `Query.SinglePair` | src/App.tsx:42 | `name=value` with a query-safe value parses to that single pair |
| `Query.TwoPairs` | src/App.tsx:42 | `n1=v1&n2=v2` parses to those two pairs in order |
| `Client.StartupRoute` | src/App.tsx:42-47 | the force-approve fetch is chosen exactly when `payment_status` is `approved` and `campaign_id` is non-empty, and fetches that id; otherwise a non-empty `c` selects the plain fetch of that id; otherwise nothing is fetched |
| `Client.StartupRequest` | src/App.tsx:51 | the payment path asks for `force_approve=true`, the direct path does not, and no route means no request |
| `Client.Page.Startup` | src/App.tsx:41-50 | the request made is the one the query string selects; the page is marked loading when a fetch starts and is otherwise left as it was |
| `Client.Page.FinishStartup` | src/App.tsx:53-96 | the participate view is entered exactly when the fetched campaign has a frame; otherwise the payment path starts a list request and shows the list, the direct path goes home; the page is still loading exactly when that list request was started |
| `Client.Page.SelectCampaign` | src/App.tsx:246-259 | a campaign with a frame opens in the participate view; otherwise nothing changes |
| `Client.Page.UploadFrame` | src/App.tsx:163-194 | no file or a file over 2 MiB leaves the stored frame unchanged; an accepted file replaces it with the re-encoded image when that image could be drawn |
| `Client.DasherizeNoSpace` | src/App.tsx:357 | replacing white-space runs leaves no white space, and a non-empty name stays non-empty |
| `Client.DasherizeRun` | src/App.tsx:357 | a word, then a run of white space, then a non-space turns the whole run into exactly one `-` |
| `Client.DasherizeSpaceFree` | src/App.tsx:357 | a name without white space is left as it is |
| `Client.SlugIdempotent` | src/App.tsx:357 | slugging a slug changes nothing |
| `Client.DownloadName` | src/App.tsx:356-357 | the file name is a non-empty stem without white space followed by `.png`; the stem is the slug of the campaign name, or `campanha` when there is no campaign or no name |
| `Client.SharesAgree` | src/App.tsx:264-265 | sharing from the list and from the open campaign (its own template, src/App.tsx lines 414-415) give the same title, text, URL and clipboard text for the same campaign |
| `Client.PayloadLengthBounds` | src/App.tsx:203 | the JSON payload is at least 28 characters longer than name and frame together, and at most six characters per character plus 28 |
| `Client.PrepareSubmission` | src/App.tsx:196-206 | nothing is sent when the name is only white space, when no frame is set, or when the payload exceeds 4 MiB; otherwise exactly that name and frame are sent |
| `Client.LargeFrameNeverSubmitted` | src/App.tsx:202-206 | a frame longer than 4 MiB minus the name and 28 characters is never sent |
| `Client.DeleteRequest` | src/App.tsx:286-287 | a cancelled or empty password prompt sends no request; otherwise the typed password is sent |
| `Integration.CampaignIdQuerySafe` | server.ts:55 | server ids are non-empty and contain none of `&`, `#`, `+`, `%`, so they survive a query string |
| `Integration.SuccessUrlRoutesBack` | server.ts:76 | loading the success back URL makes the page force-approve-fetch exactly the created campaign |
| `Integration.ShareLinkRoutesBack` | src/App.tsx:264 | following a share link makes the page plainly fetch the shared campaign, through the same `c` key start-up reads |
| `Integration.SubmissionHasRequiredFields` | server.ts:49-51 | whatever the client submits has a non-empty name and frame, so it never meets the server's 400 |
| `Integration.DeleteFromPage` | src/App.tsx:283-308 | the page sends a delete exactly when the prompt was answered, reports success exactly when the answer is the admin password, and only then is the row removed |
| `Integration.PaidCampaignIsListed` | server.ts:108-111 | in any table where the new id is free, and whichever of `APP_URL`, `Origin` or `Host` gives the base URL, a created campaign whose payer follows the success URL opens in the participate view and appears in the public list with its name |
| `Integration.WebhookApprovalIsListed` | server.ts:140-159 | in any table where the new id is free, a created campaign whose payment the webhook confirms appears in the public list, whether the payer's redirect came before the webhook, after it or never |

## Left out

- Express and SQLite plumbing is not modelled: schema creation, middleware, static or Vite
  serving, `listen`, and the 500 replies for database errors other than a duplicate id. The table
  is a map that starts empty; the database file's persistence across restarts is not modelled.
- `getMPClient` caching of the provider client is not modelled. Only its throw on a missing
  access token is.
- The payment provider is foreign. `Preference.create` is a `Result` parameter (an init point or
  an error message), and `Payment.get` is a `PaymentLookup` parameter.
- The preference's `unit_price` of 29.99 is left out: it is floating point.
- Request bodies whose fields are not strings are left out. So is a `force_approve` given twice,
  which Express reads as an array. The webhook's `action` field is unused by the source.
- Express path and query parsing of `/api/campaigns/:id?force_approve=true` is not modelled.
  The client's request is handed over as the arguments of `Get`.
- Client.StartupRoute: percent-decoding in `URLSearchParams` is not modelled. The routing
  lemmas are therefore stated for ids without `&`, `#`, `+` and `%`, and for origins without
  `?` and `#`.
- Text.Lower: lower-casing covers ASCII letters only. JavaScript's `toLowerCase` also maps
  other Unicode letters.
- Client.PayloadLength: counts UTF-16 units for Unicode scalar values. Lone surrogates cannot
  occur in the model.
- All canvas work is left out: drawing, cover scale, pointer positions, dragging, zoom, the frame
  resize to 1080x1350, `toDataURL`/`toBlob`, and photo sharing with its Android check.
  `UploadFrame` receives the re-encoded frame as a parameter.
- Browser I/O is left out: `FileReader`, `Image`, `fetch`, `alert`, `prompt`, `navigator.share`,
  the clipboard and `history.replaceState`. Fetch results are `FetchOutcome` parameters.
- After a successful `createCampaign` check, the client's handling of the response is left out:
  the content-type test, `data.error`, the redirect to `init_point`, the HTML stripping of error
  text, and the `isPaying` flag.
- `fetchCampaigns` is recorded only as a count of list requests in `Client.Page`, and its start
  raises the loading flag. The end of that request and the list it stores are not modelled.
- Navigation buttons and the rest of the JSX are not modelled. This includes the create button's
  `disabled` test, which uses the untrimmed name.
- Handlers run as atomic steps. Concurrent requests are modelled only as interleavings of whole
  handlers.
