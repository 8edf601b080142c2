# UniMarketPlace core, modelled in Dafny

UniMarketPlace is a campus marketplace built with Next.js and Prisma. Students
list items for sale or rent, save listings, open conversations with sellers,
review and report, and browse a paginated, filtered marketplace. This project
models the request-handling rules of that application as pure functions over
an in-memory store and proves properties of them.

The store (`Store.Db`) holds one sequence of rows per database table. Prisma
queries become the filter, count, stable newest-first sort and take of
`Common`. The following are parameters of the operations:

- the clock (`now`)
- the ids the database would generate
- the random part of upload keys
- URL validity (`isUrl`)
- zod's message text (`messageOf`)
- the offer line of the notification feed (`offerBody`)

Request bodies are modelled field by field as `Field<T>`: absent, null, a
value of the expected type, or a value of another type. Form and query entries
are `Option<string>`. `Number()` of a text is `Parsed`: a finite real, or NaN.

| file | module | models |
|---|---|---|
| common.dfy | Common | optional values, query combinators (Filter, Count, SortDesc, Take, Drop, TopBy), JavaScript string helpers (trim, case-insensitive contains, UTF-16 length, decimal text) |
| store.dfy | Store | the table rows and the database |
| rate_limit.dfy | RateLimit | `lib/rate-limit.ts` |
| validators.dfy | Validators | the zod schemas of `lib/validators.ts` as issue lists and acceptance predicates |
| badges.dfy | Badges | `lib/badges.ts` |
| saved.dfy | SavedRoute | `app/api/saved/route.ts` |
| unread.dfy | UnreadRoute | `app/api/notifications/unread/route.ts` |
| actions.dfy | Actions | `app/actions.ts` |
| reviews.dfy | ReviewsRoute | `app/api/reviews/route.ts` |
| reports.dfy | ReportsRoute | `app/api/reports/route.ts` |
| conversations.dfy | ConversationsRoute | `app/api/conversations/route.ts` |
| listings_api.dfy | ListingsRoute | `app/api/listings/route.ts` |
| marketplace.dfy | Marketplace | `app/marketplace/page.tsx` |
| notifications.dfy | Notifications | `app/notifications/page.tsx` |
| uploads.dfy | UploadRoute | `app/api/uploads/r2/route.ts` |
| bundles.dfy | NewBundle | `app/bundles/new/page.tsx` |
| profile.dfy | Profile | `app/profile/page.tsx` |

## Model

| member | source | states |
|---|---|---|
| RateLimit.IsRateLimited | lib/rate-limit.ts:10-27 | The call is blocked iff at least `maxHits` stored timestamps are less than `windowMs` old. A blocked call stores exactly the pruned list. An allowed call stores the pruned list followed by `now`. Every other key is unchanged. |
| RateLimit.IsRateLimitedDefault | lib/rate-limit.ts:10-14 | With the defaults, the call is blocked iff 5 or more hits fall within the last 60 000 ms. |
| RateLimit.RecentCount | lib/rate-limit.ts:17 | The pruned list is as long as an independent recursive count of the timestamps inside the window. |
| RateLimit.BoundPreserved | lib/rate-limit.ts:19-25 | If no key holds more than `maxHits` timestamps before a call, none does after it. |
| RateLimit.ReplayBounded | lib/rate-limit.ts:19-25 | The same bound holds after any sequence of calls that use one `maxHits`. |
| RateLimit.RecentAscending | lib/rate-limit.ts:17 | Pruning keeps the surviving timestamps in their order. |
| RateLimit.OrderPreserved | lib/rate-limit.ts:17-25 | A call made no earlier than every stored hit leaves every list in time order. |
| RateLimit.ReplayOrdered | lib/rate-limit.ts:17-25 | Calls whose clock never goes back leave every stored list in time order. |
| Validators.StringIssues | lib/validators.ts:4-9 | No issue iff the field's presence is allowed and a present string has at least `min` UTF-16 units. Every issue names the field. |
| Validators.NumberIssues | lib/validators.ts:6 | No issue iff the presence is allowed and a present number is an integer within the bounds, and positive when that is required. |
| Validators.EnumIssues | lib/validators.ts:10 | No issue iff the presence is allowed and a present value is one of the allowed names. |
| Validators.ArrayIssues | lib/validators.ts:12-15 | No issue iff the presence is allowed and a present array has enough items, each allowed or a URL as the schema asks. |
| Validators.ListingIssues | lib/validators.ts:3-21 | The listing schema reports no issue iff the body meets every field rule of `ListingAccepted`. |
| Validators.ParseListing | lib/validators.ts:3-21 | The parse is valid iff the body is accepted. A failed parse carries the non-empty issue list. A valid parse keeps the values: integer non-negative price, SELL or RENT, and a positive rental period only when one was given. |
| Validators.FreeListingPrice | lib/validators.ts:6 | A body with price p is accepted iff the same body priced 0 is accepted and p is a whole, non-negative number. |
| Validators.MessageIssues | lib/validators.ts:23-25 | A message body passes iff it is present and non-empty. |
| Validators.ReviewIssues | lib/validators.ts:27-32 | A review passes iff the rating is an integer from 1 to 5, the comment is missing, null or at least 3 long, the listing id is missing, null or a string, and the seller id is present. |
| Validators.MutualReviewIssues | lib/validators.ts:34-38 | The same rating and comment rules, plus a required transaction id. |
| Validators.ReportIssues | lib/validators.ts:40-44 | A report passes iff the reason is at least 3 long, the details are missing, null or at least 3 long, and the listing id is present. |
| Validators.TransactionIssues | lib/validators.ts:46-49 | A transaction passes iff both ids are present. |
| Validators.BundleIssues | lib/validators.ts:51-56 | A bundle passes iff the title is at least 3 long, the discount is an integer from 0 to 100, and at least one listing id is given. |
| Badges.FirstReply | lib/badges.ts:44-49 | Finds the first index i ≥ 1 where message i is the user's and message i-1 is not, or reports that there is none. |
| Badges.NoReplyNoSample | lib/badges.ts:44-45 | A conversation with fewer than two messages, or with no such reply, adds no sample. |
| Badges.ResponseStats | lib/badges.ts:39-51 | The nested loop that stops at the first reply computes exactly the count and the sum of the per-conversation samples. |
| Badges.QuickResponderMean | lib/badges.ts:53 | The division-free test `total < 3 600 000 × count` agrees with the mean gap being under an hour. |
| Badges.RecentConversations | lib/badges.ts:30-37 | The scan reads the 10 newest conversations the user takes part in, newest first. A conversation of the user is left out only when 10 at least as new are read. |
| Badges.FirstMessages | lib/badges.ts:33 | A conversation contributes its first 10 messages, oldest first. A message of the conversation is left out only when 10 at least as old are read. |
| Badges.Samples | lib/badges.ts:42-51 | Each conversation adds at most one response-time sample. |
| Badges.Awarded | lib/badges.ts:19-57 | Each badge is present iff its decision holds. The badges appear in the order verified, trusted, quick, each at most once. |
| Badges.GetUserBadges | lib/badges.ts:9-58 | An unknown user gets no badge. "verified" iff `isVerified` or a non-empty university email. "trusted" iff at least 5 sales. "quick" iff there is a sample and the mean is under an hour. The order is fixed. |
| SavedRoute.Toggle | app/api/saved/route.ts:23-31 | The pair becomes saved iff it was not. The saved-pair set gains or loses exactly that pair. Every other row is kept and no other row appears. The unique key still holds. |
| SavedRoute.Post | app/api/saved/route.ts:15-34 | A missing or empty `listingId` answers 400 and changes nothing. Otherwise the answer is 200 and the rows are those of `Toggle`. The pair flips, every other saved row is kept, no other row appears, and the unique key still holds. |
| SavedRoute.ToggleTwice | app/api/saved/route.ts:23-31 | Two toggles of the same pair restore the saved pairs. When the pair was not saved, they restore the rows themselves. |
| SavedRoute.Get | app/api/saved/route.ts:5-13 | Exactly the caller's saved rows, drawn from the table, newest first. |
| UnreadRoute.Own | app/api/notifications/unread/route.ts:7-10 | Exactly the caller's participant rows. |
| UnreadRoute.UnreadCount | app/api/notifications/unread/route.ts:5-32 | 0 when the caller has no participations. Otherwise the sum over the caller's own participations of the other-sender messages newer than their last read, or all of them when never read. |
| UnreadRoute.OwnMessageNotCounted | app/api/notifications/unread/route.ts:21 | Appending a message sent by the caller leaves their count unchanged. |
| UnreadRoute.ReadLaterCountsFewer | app/api/notifications/unread/route.ts:22-24 | Moving one participation's read time later never raises its count. |
| UnreadRoute.ReadLaterTotalFewer | app/api/notifications/unread/route.ts:16-30 | Moving read times later, one participation at a time, never raises the total. |
| Actions.Payload | app/actions.ts:14-28 | Title, description, category, condition and campus pass through as texts, "" when missing. The price is the form's price in whole cents, or a wrong type when that is not a finite number. A missing transaction type becomes SELL. A given rental period passes through, a missing one becomes null. An image URL is passed only when the form entry is non-empty. No delivery options or image list are sent. |
| Actions.CreateListingAction | app/actions.ts:13-56 | The form comes back with an error iff the payload fails the listing schema. The error is the issue messages joined by spaces, and nothing is written. Otherwise exactly one listing is appended and nothing else changes. It is owned by the caller and AVAILABLE, and carries the form's title, description, category, condition, campus, price, transaction type and rental period. It is created now, with no views, no bundle and delivery options left to the database default. It has at most one image, present iff an image URL was given. The action then redirects to the listing. |
| Actions.StoredFromForm | app/actions.ts:37-50 | The listing stored for an accepted form carries the form's texts, price, transaction type and rental period, the caller as owner and AVAILABLE. It is created now, with no views and no bundle, and has an image iff an image URL was given. |
| Actions.StartConversation | app/actions.ts:58-82 | Throws without writing iff the listing or seller entry is the empty string. Otherwise it makes the same write as the conversations POST: the conversation, the caller's and seller's participant rows, and an opening message only when one was typed. It then redirects to the conversation. |
| Actions.MissingEntriesBecomeNull | app/actions.ts:59-60 | Absent entries become the text "null" and do not stop the action. |
| Actions.MarkRead | app/actions.ts:100-103 | Only the caller's row in that conversation gets the new read time. Every other row is unchanged. |
| Actions.SendMessage | app/actions.ts:84-106 | An empty body throws and writes nothing. Otherwise one message from the caller is appended and only the caller's read time in that conversation moves to now. |
| Actions.OwnAfterMarkRead | app/actions.ts:100-103 | The caller's rows keep their order, and each read time stays or moves later. |
| Actions.SendMessageNoNewUnread | app/actions.ts:84-106 | Sending a message never raises the sender's unread count. |
| ReviewsRoute.Post | app/api/reviews/route.ts:6-25 | A body failing the review schema answers 400 and changes nothing. Otherwise exactly one review is appended with the caller as reviewer and a rating from 1 to 5. Missing or null comment and listing id are stored as null. The answer is 201. |
| ReviewsRoute.PostKeepsRatingsInRange | app/api/reviews/route.ts:14-22 | Posting keeps every stored rating between 1 and 5. |
| ReviewsRoute.RepeatedPostAppendsAgain | app/api/reviews/route.ts:14-22 | Posting the same valid review twice stores it twice. |
| ReportsRoute.Get | app/api/reports/route.ts:6-12 | Every report exactly once, newest first. |
| ReportsRoute.Post | app/api/reports/route.ts:14-32 | A body failing the report schema answers 400 and changes nothing. Otherwise exactly one report is appended with the caller as reporter and missing details as null. The answer is 201. |
| ReportsRoute.NewestReportFirst | app/api/reports/route.ts:7-10 | A report filed after every earlier one is first in the next GET. |
| ConversationsRoute.OpenConversation | app/api/conversations/route.ts:27-33 | Appends the conversation and two participant rows, caller then seller. It appends a message from the caller iff the message is non-empty. Nothing else changes. |
| ConversationsRoute.Post | app/api/conversations/route.ts:18-36 | A missing or empty listing or seller id answers 400 and writes nothing. Otherwise the conversation is opened and the answer is 201. |
| ConversationsRoute.LatestMessage | app/api/conversations/route.ts:11 | None iff the conversation has no message. Otherwise a message of that conversation with no later one. |
| ConversationsRoute.MyConversations | app/api/conversations/route.ts:7-14 | Exactly the conversations the caller takes part in, newest first. |
| ConversationsRoute.Get | app/api/conversations/route.ts:5-16 | Each of the caller's conversations in that order, carrying its latest message. |
| ConversationsRoute.OpenedIsListedForBoth | app/api/conversations/route.ts:27-33 | An opened conversation is listed for both the caller and the seller. |
| ListingsRoute.ParseNumber | app/api/listings/route.ts:6-10 | A bound applies iff it was given and is finite. |
| ListingsRoute.ReadSearch | app/api/listings/route.ts:13-19 | The query is rejected iff `type` is active and neither SELL nor RENT. Otherwise the trimmed parameters and the bounds in whole cents are taken. |
| ListingsRoute.Get | app/api/listings/route.ts:12-44 | A listing is returned iff it satisfies every active filter. The query matches title or description case-insensitively, and both price bounds are inclusive. Results are drawn from the table, newest first. |
| ListingsRoute.NoParametersReturnsAll | app/api/listings/route.ts:24-40 | With no parameters every listing is returned. |
| ListingsRoute.CentsRoundTrip | app/api/listings/route.ts:37-38 | A price given in whole cents converts back to the same cents. |
| ListingsRoute.PriceAtBoundsIsReturned | app/api/listings/route.ts:37-38 | A listing priced exactly at the minimum and at the maximum is returned. |
| ListingsRoute.Images | app/api/listings/route.ts:66-74 | The image list is `imageUrls` in order, then a non-empty `imageUrl`. It is empty when both are absent. |
| ListingsRoute.Post | app/api/listings/route.ts:46-79 | An invalid body answers 400 and writes nothing. Otherwise one AVAILABLE listing is appended, owned by the caller, not in a bundle and with no views. Title, description, price, category, condition, campus, type and rental period are stored as given, and a missing rental period is null. Delivery options are stored as given, else [MEETUP]. The images are those of `Images`: `imageUrls` in order, then a non-empty `imageUrl`. The answer is 201. |
| Marketplace.FormatStatus | app/marketplace/page.tsx:15-26 | The text changes iff it is AVAILABLE, RESERVED or SOLD. |
| Marketplace.FormatStatusIsTitleCase | app/marketplace/page.tsx:15-26 | A known status keeps its first letter and lower-cases the rest. |
| Marketplace.PageNumber | app/marketplace/page.tsx:51 | The page is at least 1. A missing, zero or non-positive page gives 1. |
| Marketplace.TotalPages | app/marketplace/page.tsx:99 | The page count is the ceiling of count / 20. |
| Marketplace.PageOf | app/marketplace/page.tsx:94-95 | At most 20 listings, the ones at positions (page-1)×20 onward. |
| Marketplace.OnItsPage | app/marketplace/page.tsx:94-99 | Every result appears on the page its position says, and that page is within the page count. |
| Marketplace.Pagination | app/marketplace/page.tsx:476-497 | The bar shows iff there is more than one page. Previous shows iff page > 1, and Next iff page < totalPages. |
| Marketplace.ReadWhere | app/marketplace/page.tsx:45-83 | `type` defaults to "all", and any type other than all, FREE, HOUSING, TRENDING, SELL or RENT is rejected. FREE and HOUSING select their kind, SELL and RENT their transaction type, and "all" and TRENDING no kind. Query, category and campus are the trimmed parameters, or empty when absent. A price bound applies iff it is finite, and is then the rounded amount in cents. furnished is true for "yes" and false for "no", and pets is required for "yes", both only under HOUSING. |
| Marketplace.HousingFiltersOnlyForHousing | app/marketplace/page.tsx:79-81 | Without type HOUSING, the furnished and pets parameters change nothing. |
| Marketplace.KindConstrains | app/marketplace/page.tsx:68-71 | Under FREE every match is free. Under HOUSING every match is in the Housing category. |
| Marketplace.Matching | app/marketplace/page.tsx:56-93 | Exactly the listings meeting the where clause, counted as `count` counts them, newest first. |
| Marketplace.Browse | app/marketplace/page.tsx:85-99 | The listings are the page of `Matching` at (page-1)×20: at most 20 matching listings, newest first. The total count and page count are given, and a page beyond the last is empty. |
| Marketplace.Trending | app/marketplace/page.tsx:102-107 | At most 8 AVAILABLE listings, most viewed first. An AVAILABLE listing is left out only when 8 are shown, none with fewer views. |
| Marketplace.PrimaryCampus | app/marketplace/page.tsx:110-111 | The campus parameter, else the user's campus, else the smallest listing campus, else "Main Campus". |
| Marketplace.Sectioned | app/marketplace/page.tsx:122-126 | Buy & Sell is SELL with price > 0, Rentals is RENT, and Free is price 0, each in page order. Today's Picks is the first 6 listings of the page. Near You is the first 6 listings of the page on the primary campus. An on-campus listing is left out only when 6 are shown. |
| Marketplace.BuySellAndFreeDisjoint | app/marketplace/page.tsx:122-124 | Buy & Sell and Free share no listing. |
| Marketplace.MarketplacePage | app/marketplace/page.tsx:40-126 | The page is rejected iff the where clause is. Otherwise it computes the grid, the trending list, the sections of the current page, the primary campus and the pagination bar for every type. What it shows is chosen by the trimmed type, as `Displayed` states. |
| Marketplace.Displayed | app/marketplace/page.tsx:343-466 | Under "all" the page shows the first 4 trending listings (fewer when there are fewer), then the sections, with Free Stuff only when it has listings. Under TRENDING it shows the whole trending list. Under any other type it shows one grid of the current page, headed Buy & Sell iff SELL, Rentals iff RENT and Free Stuff iff FREE. |
| Marketplace.GridShownIffNarrowed | app/marketplace/page.tsx:68-76 | For an accepted where clause, the single grid is shown exactly when the type narrows the query, and not under "all" or TRENDING. |
| Notifications.TimeAgo | app/notifications/page.tsx:5-14 | "just now" iff under 60 whole seconds, including the future. Otherwise minutes, hours or days, each a floor division of the seconds and below its limit. |
| Notifications.Preview | app/notifications/page.tsx:72 | A body over 80 characters becomes its first 80 plus "...". Shorter bodies are unchanged. |
| Notifications.ReviewBody | app/notifications/page.tsx:90 | Starts with "<rating>/5". A non-empty comment adds at most 60 of its characters in quotes. |
| Notifications.ReviewHref | app/notifications/page.tsx:91 | A review links to its listing when it has one, else to /profile. |
| Notifications.IdsNeverCollideAcrossKinds | app/notifications/page.tsx:68-86 | A message item, an offer item and a review item never share an id, whatever the row ids. |
| Notifications.RecentMessages | app/notifications/page.tsx:20-31 | The 20 newest messages from others in the caller's conversations, newest first. Such a message is left out only when 20 at least as new are shown. |
| Notifications.RecentOffers | app/notifications/page.tsx:34-42 | The 10 newest offers to the caller as seller, newest first. Such an offer is left out only when 10 at least as new are shown. |
| Notifications.RecentReviews | app/notifications/page.tsx:45-53 | The 10 newest reviews of the caller by others, newest first. Such a review is left out only when 10 at least as new are shown. |
| Notifications.Feed | app/notifications/page.tsx:66-94 | Exactly the combined items, at most 40, newest first. |
| Notifications.FeedMessagesAreIncoming | app/notifications/page.tsx:20-24 | Every message item in the feed stands for a message someone else sent in one of the caller's conversations. |
| UploadRoute.RequireEnv | app/api/uploads/r2/route.ts:11-16 | Fails with "Missing <name>" iff the value is undefined or empty. Otherwise returns it unchanged. |
| UploadRoute.Sanitize | app/api/uploads/r2/route.ts:41 | Same length in UTF-16 units. Every character is in [A-Za-z0-9._-]. |
| UploadRoute.SanitizeInPlace | app/api/uploads/r2/route.ts:41 | Without astral characters, allowed characters keep their place and every other becomes '-'. |
| UploadRoute.SanitizeKeepsAllowed | app/api/uploads/r2/route.ts:41 | A name of allowed characters is kept as it is. |
| UploadRoute.SanitizeIdempotent | app/api/uploads/r2/route.ts:41 | Sanitising twice equals sanitising once. |
| UploadRoute.ObjectKey | app/api/uploads/r2/route.ts:42 | The key starts with "uploads/" and ends with "-" and the safe name. |
| UploadRoute.PublicUrl | app/api/uploads/r2/route.ts:52 | The base with one trailing '/' removed, then '/' and the key. |
| UploadRoute.OnlyOneSlashRemoved | app/api/uploads/r2/route.ts:52 | A base ending in "//" keeps one of its slashes. |
| UploadRoute.FirstMissing | app/api/uploads/r2/route.ts:18-39 | Nothing is missing iff all five variables are set. The bucket is checked first, then the public URL. |
| UploadRoute.Post | app/api/uploads/r2/route.ts:30-55 | A missing filename or content type answers 400 before any variable is read. Otherwise the first missing variable fails the request. Otherwise the answer has the sanitised key and its public URL. |
| NewBundle.BundleCandidates | app/bundles/new/page.tsx:5-11 | Exactly the caller's AVAILABLE listings without a bundle, each as often as it is stored, with no limit, newest first. |
| NewBundle.NewListingIsCandidate | app/bundles/new/page.tsx:8 | A listing just created through the listings API can be bundled. |
| Profile.OwnListings | app/profile/page.tsx:27 | The user's own listings, newest first, each as often as it is stored. |
| Profile.ReviewsReceived | app/profile/page.tsx:28 | Exactly the reviews of the user. Their ratings stay from 1 to 5 when all stored ratings are. |
| Profile.Active | app/profile/page.tsx:60 | Exactly the AVAILABLE listings. |
| Profile.Sold | app/profile/page.tsx:61 | Exactly the SOLD listings. |
| Profile.OwnWithStatus | app/profile/page.tsx:60-61 | The user's listings with one status stay newest first, each appears as often as it is stored, and their number is the count of such listings. |
| Profile.RatingSumBounds | app/profile/page.tsx:64 | With ratings from 1 to 5, the sum of n ratings lies between n and 5n. |
| Profile.PartitionByStatus | app/profile/page.tsx:60-61 | Active and sold never overlap. Together they are exactly the listings that are not RESERVED. |
| Profile.AverageRating | app/profile/page.tsx:62-66 | 0 with no reviews. Otherwise a value that, times the number of reviews, is the rating sum. |
| Profile.AverageInRange | app/profile/page.tsx:62-66 | With ratings from 1 to 5, a non-empty average lies between 1 and 5. |
| Profile.ProfileCounts | app/profile/page.tsx:46-50 | Saved, sales, purchases, followers and following each count their own relation. Sales plus purchases cover every transaction the user took part in. |
| Profile.RecentTransactions | app/profile/page.tsx:51-56 | At most 10 transactions, each with the user as seller or buyer, newest completion first. One is left out only when 10 later ones are shown. All are shown when there are at most 10. |
| Profile.SmallHistoryIsComplete | app/profile/page.tsx:47-56 | With at most 10 sales and purchases, the history shows every transaction of the user. |
| Profile.SalesCountMatchesBadge | app/profile/page.tsx:47 | The sales count shown is the one the trusted-seller badge uses. |
| Profile.RowRole | app/profile/page.tsx:200-206 | A row reads "Sold to" iff the user is the seller. |
| Profile.ProfilePage | app/profile/page.tsx:22-66 | "User not found" iff the user is unknown. Otherwise it shows the user's active and sold listings, the average rating, the counts, the recent transactions and the badges. Active and sold are each newest first and hold exactly the user's AVAILABLE and SOLD listings, as many as are stored. The trusted badge shows iff the sales count shown is at least 5. |
| Profile.ShownAverageInRange | app/profile/page.tsx:62-66 | When every stored rating came through the review route, the shown average is 0 or between 1 and 5. |

## Left out

- Concurrency. The saved toggle is check-then-act, and the rate limiter's map is process-global. Both are modelled as sequential calls.
- Database effects beyond the rows. Prisma includes and joins (images, user, listing titles, sender and buyer names) and foreign-key failures are not modelled. A created row's id and timestamp are parameters.
- Column defaults. The Prisma schema is not part of this model. A created listing is assumed to start AVAILABLE, with no views, no bundle, and furnished and petsAllowed unset (None). createListingAction sends no delivery options, so its listing stores None for them, standing for the database default.
- Housing fields of a created listing. `POST /api/listings` validates flairs, moveInDate, moveOutDate, furnished, roommates and petsAllowed, but does not store them. The model does the same.
- Identity, the clock and randomness: `getCurrentUserId`, `Date.now()` and `Math.random()` are parameters.
- S3/R2 presigning, `revalidatePath`, and rendering (icons, titles, price and date formatting, Intl).
- Request bodies arrive already decoded. Malformed JSON, on which `request.json()` throws, and a body that is not an object, which zod answers with 400, are not modelled.
- Common.RoundCents: rounds `min * 100` in exact arithmetic, while `Math.round(min * 100)` works on IEEE doubles. The two differ when the product is not exact: for 1.005 the double product is 100.49999999999999, so the source bounds at 100 cents while the model bounds at 101.
- Floating point. Every computed number is an exact integer or real. This also holds for `Profile.AverageRating`: the page divides the rating sum by the review count in IEEE doubles, so the shown average may differ from the exact mean in the last bits.
- `Number()` text parsing. The price, rental period and page entries arrive already parsed: integer cents for the form price, `Parsed` for bounds, and an integer page. Infinity is treated like NaN. Fractional page numbers are not modelled.
- zod's message text is the parameter `messageOf`. URL syntax is the opaque predicate `isUrl`.
- The text `sendMessage` throws is zod's error message. The model throws a fixed text, and only whether it throws is stated.
- Non-string JSON values for `listingId` in the saved body, for `listingId`, `sellerId` and `message` in the conversations body, and for `filename` and `contentType` in the upload body. A truthy non-string `listingId` in the saved body passes the missing-id check, and Prisma then throws, so that request fails. Those fields are modelled as optional strings, and truthiness is what the routes test.
- Case folding is ASCII-only in `Common.Lower`. Prisma's insensitive `contains` folds more of Unicode.
- The offer line of the feed (`toFixed`, listing title) is the parameter `offerBody`.
- Stability of the newest-first sort. `SortDesc` is a stable insertion sort, but only order and permutation are stated.
- Offer submission, sale finalisation, mutual-review uniqueness, view counting, recommendations, bundle pricing, and the actions the UI imports from elsewhere. None of their code is part of this model.
- Marketplace.PrimaryCampus: the campus options are sorted with `sort()`, which compares UTF-16 code units. `LexLeq` compares code points, and the two orders differ only for characters outside the Basic Multilingual Plane.
- Notifications.Preview: `slice(0, 80)` counts UTF-16 code units. The model counts characters, so the two agree only for text without astral characters.
- Notifications.ReviewBody: the same holds for `slice(0, 60)` of the comment.
- UploadRoute.SanitizeInPlace: stated only for names without astral characters. Each astral character becomes "--", and `Sanitize` states the length in UTF-16 units.
- Marketplace.PageNumber: takes the page as an integer, so fractional pages such as "2.5" are not modelled.
