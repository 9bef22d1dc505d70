# golazo: goal-highlight resolver and panel layout, modelled in Dafny

golazo is a terminal football scores app. This project models two parts of it.

**Reddit highlight resolver.** For each goal, it looks up a replay link on r/soccer and caches the answer.
- Two search channels: an authenticated OAuth channel with its own token lifecycle, and a public JSON channel.
- Both channels wait on an adaptive rate limiter. The public channel also rotates its User-Agent and treats captcha pages as errors.
- The resolver tries a primary query (both teams and the minute), then, if that finds nothing, a secondary query (the scoring team and the minute).
- The results are merged without duplicate URLs.
- Cached answers include "not found" markers. Uncached goals are resolved in batches of five, with a pause between batches.

**Terminal UI decisions.** These cover:
- the dialog overlay stack;
- the league-list delegate, with its filter, highlighting and checkbox;
- the two-panel layouts of the live and stats views, with their default size, spinner rows and width split;
- the finished/upcoming list panel and the date selector;
- the match list rows, the details panel, the live-updates feed and the event lines;
- the section headers with their gradient and diagonal fills.

**League ID lookup script.** The lookup script's search and its name truncation are modelled too.

Where the program reads something unmodelled, that thing becomes a parameter:
- the clock and HTTP replies;
- JSON decoding;
- `findBestMatch`;
- `lipgloss.Width` and whether colours parse.

`time.Sleep` becomes a returned duration or a `Pause` step in a trace. Go's truncating `/` is written out as `GoInt.Quot`, and `strings.Repeat` with a negative count (a panic) is an explicit `None`.

Modules, one per source concern:
- `Wrappers`, `GoInt`, `Text`, `Seqs`: shared helpers.
- `RateLimit`, `BotDetect`, `Fetch`, `OAuth`, `Resolver`, `Batch`: internal/reddit.
- `Dialog`, `ListDelegate`, `Layout`, `StatsList`, `Panels`, `Header`: internal/ui.
- `Leagues`: scripts/find_league_id.go.

## Model

| member | source | states |
|---|---|---|
| GoInt.Quot | internal/ui/list_panels.go:232 | Go's integer division truncates toward zero: the remainder has the sign of the dividend and is smaller than the divisor |
| GoInt.QuotOfNonNegative | internal/ui/list_panels.go:322 | for a non-negative dividend, truncating division agrees with floor division |
| GoInt.NatToStringReadsBack | internal/ui/panels.go:405 | the decimal rendering of a natural number reads back as that number |
| RateLimit.NewLimiter | internal/reddit/client.go:42-47 | a new limiter has no previous request and no captchas, starts at the first User-Agent, and its interval is the largest one of which `rpm` fit in a minute |
| RateLimit.PublicInterval | internal/reddit/client.go:97-106 | the public channel, built at 5 requests a minute, spaces requests 12 s apart |
| RateLimit.OAuthInterval | internal/reddit/oauth.go:73 | the OAuth channel, at 10 requests a minute, spaces requests 6 s apart |
| RateLimit.Wait | internal/reddit/client.go:49-66 | after waiting, at least the current interval separates the new request from the previous one; any sleep is exactly what is missing to reach that interval; only `lastRequest` changes |
| RateLimit.WaitAfterCaptcha | internal/reddit/client.go:54-58 | within ten minutes of a captcha, consecutive requests are at least twice the base interval apart |
| RateLimit.RecordCaptcha | internal/reddit/client.go:69-75 | recording a captcha increments the count, stamps the time (which makes the doubled interval apply) and changes nothing else |
| RateLimit.NextUserAgent | internal/reddit/client.go:78-85 | hands out the agent at the current index and advances the index modulo five, leaving the rest of the limiter alone |
| RateLimit.RoundRobin | internal/reddit/client.go:78-94 | call number k hands out the identity k places after the cursor, wrapping round the five identities: pure round-robin rotation |
| RateLimit.SpanLowerBound | internal/reddit/client.go:49-66 | n requests through one limiter span at least (n-1) intervals, whatever their arrival times |
| BotDetect.AnyIndicator | internal/reddit/client.go:501-507 | the scan is true exactly when some indicator occurs in the lower-cased body |
| BotDetect.IsCaptchaResponse | internal/reddit/client.go:489-508 | a body is classified as a captcha page exactly when its lower-cased text contains one of the seven indicators |
| BotDetect.JsonMentioningRobotIsRejected | internal/reddit/client.go:493 | a JSON body whose text mentions "Robot" is classified as a captcha page |
| BotDetect.EmptyObjectAccepted | internal/reddit/client.go:489-508 | an indicator-free body is accepted |
| Fetch.WindowSpansThreeDays | internal/reddit/client.go:113-116 | the timestamp filter runs from one day before kickoff to two days after (72 hours) and contains kickoff |
| Fetch.MediaOnly | internal/reddit/client.go:180-189 | keeps exactly the posts with Media flair |
| Fetch.MediaOnlyKeepsOrder | internal/reddit/client.go:181-186 | the Media filter keeps the payload's order |
| Fetch.PublicSearch | internal/reddit/client.go:110-190 | waits on the limiter, rotates the agent and sends the windowed request. A captcha page records a captcha and yields the blocking error. Success exactly for a complete 200 reply that is not a captcha page and decodes, giving its Media posts |
| OAuth.Authenticate | internal/reddit/oauth.go:119-163 | the token is replaced (access, refresh, expiry) exactly on a granted reply; otherwise there is an error and the token is unchanged |
| OAuth.Refresh | internal/reddit/oauth.go:166-213 | on a grant the access token and expiry are replaced, and the refresh token only when a new one is given; on failure the token is unchanged |
| OAuth.RefreshKeepsRefreshToken | internal/reddit/oauth.go:202-209 | a refresh never loses an existing refresh token |
| OAuth.EnsureValidToken | internal/reddit/oauth.go:216-245 | the corrected renewal (see Findings): no token request exactly when an access token exists outside the five-minute margin. Otherwise a refresh is tried first when a refresh token exists, and the password grant follows only a failed refresh. A granted refresh gives the refreshed token, a lone password grant the authenticated one |
| OAuth.EnsureValidTokenAsWritten | internal/reddit/oauth.go:216-245 | the renewal as written never returns when any grant succeeds, since the write lock it holds is taken again before a granted token is stored; it returns only when no renewal is needed or every grant fails |
| OAuth.AsWrittenHangsOnEveryGrant | internal/reddit/oauth.go:216-245 | the code as written makes the corrected renewal's requests, and returns exactly when the corrected one needs no request or fails, with the same outcome |
| OAuth.GrantedRenewalHangs | internal/reddit/oauth.go:223-239 | a token four minutes from expiry with no refresh token and a granted password request: the code as written hangs, the corrected one stores the new token |
| OAuth.RenewalSchedule | internal/reddit/oauth.go:221-233 | a fresh token causes no request; four minutes before expiry a refresh is sent |
| OAuth.RenewalSettles | internal/reddit/oauth.go:216-245 | for the corrected renewal (see Findings): after a successful renewal granting more than five minutes, checking again at the same instant makes no request |
| OAuth.FreshIsAvailable | internal/reddit/oauth.go:315-319 | a token fresh for searching is available. In the last five minutes before expiry a token is still reported available though it will be renewed |
| OAuth.NewClient | internal/reddit/oauth.go:54-83 | unconfigured credentials give no client and no error. A configured client authenticates at once, and a failure is an error. A success holds the granted token and a 10-per-minute limiter |
| OAuth.OAuthSearch | internal/reddit/oauth.go:249-312 | with the corrected renewal (see Findings): waits first, then validates the token at the later instant. A validation error sends no request. Otherwise it sends the windowed request with the user's agent. It never records captchas |
| Resolver.Merge | internal/reddit/client.go:432-459 | the merged candidates have pairwise distinct URLs, all come from the successful searches, and every URL found is represented |
| Resolver.MergePrimaryFirst | internal/reddit/client.go:434-459 | primary-query results come before secondary ones, and a secondary result is kept only for a new URL |
| Resolver.LinkFor | internal/reddit/client.go:421-428 | a built link carries the goal's match ID and minute |
| Resolver.SearchOnce | internal/reddit/client.go:412-475 | always issues the primary query. It stops there exactly when that query succeeds and a best match is found. Otherwise it issues the secondary query and picks from the URL-deduplicated union. It never reports an error |
| Resolver.FoundLinkIsSearchResult | internal/reddit/client.go:461-474 | when the matcher picks from its input, a found link is built from a result of one of the two searches |
| Resolver.ChannelErrorsAreRetryable | internal/reddit/client.go:391-395 | the blocking and HTML errors of the public channel are among those the retry loop retries |
| Resolver.RetryFrom | internal/reddit/client.go:376-406 | at most three attempts, the k-th retry after k times 30 s. Every failed attempt but the last was retryable. The loop stops on success, on a non-retryable error or when attempts run out |
| Resolver.PersistentBlockingExhaustsRetries | internal/reddit/client.go:379-405 | when every attempt is blocked, three attempts are made with 30 s and 60 s pauses, and the last error is returned |
| Resolver.SearchForGoal | internal/reddit/client.go:362-409 | the OAuth channel is used exactly when a client exists and reports itself available, for one attempt; otherwise the public retry loop runs |
| Resolver.SearchNeverRetries | internal/reddit/client.go:362-475 | because a single search attempt never fails, goal search always takes exactly one attempt with no pause, and any link carries the goal's key |
| Resolver.ResolveOne | internal/reddit/client.go:269-297 | a cached key is answered from the cache (a not-found marker as no link) without searching. A search error is returned uncached. A found link is cached; no link caches a not-found marker |
| Resolver.SecondCallServedFromCache | internal/reddit/client.go:269-297 | resolving the same goal again after a successful resolution does not search and returns the same answer |
| Resolver.CachedEntriesArePermanent | internal/reddit/client.go:283-294 | resolving never changes or removes an existing cache entry |
| Resolver.BlockedSearchCachedAsNotFound | internal/reddit/client.go:269-297 | without OAuth, a goal whose searches are all blocked is cached as not found and returns no link and no error |
| Batch.PendingGoals | internal/reddit/client.go:310-333 | the goals sent to search are input goals with uncached, pairwise distinct keys, and every uncached key of the input is among them |
| Batch.PendingSnoc | internal/reddit/client.go:314-333 | a further goal becomes pending exactly when its key is new and not cached |
| Batch.CachedHits | internal/reddit/client.go:323-330 | the answers served from the cache are exactly the input keys with a found cache entry, with their cached links |
| Batch.EntryOf | internal/reddit/client.go:284-292 | a found link is cached as that link, no link as a not-found marker |
| Batch.WrittenEntries | internal/reddit/client.go:348-354 | after the batches, each pending goal whose search succeeded has its outcome cached, and a failed one has nothing cached |
| Batch.FoundLinks | internal/reddit/client.go:351-353 | only found links enter the result map |
| Batch.ScheduleResolvesPending | internal/reddit/client.go:336-355 | the batches resolve every pending goal exactly once, in order |
| Batch.SchedulePauseCount | internal/reddit/client.go:336-341 | n pending goals cause (n-1)/5 pauses: one before every batch but the first |
| Batch.SchedulePausesAreBatchDelay | internal/reddit/client.go:300-303 | every pause between batches lasts 2 s |
| Batch.ScheduleStartsWithResolve | internal/reddit/client.go:338 | there is no pause before the first batch |
| Batch.Triage | internal/reddit/client.go:314-333 | the first loop yields exactly the cached hits and the pending goals |
| Batch.ResolveBatch | internal/reddit/client.go:337-354 | one batch: a pause unless it is the first, then each of its goals through the single-goal lookup in order, keeping the cache writes and adding found links under the goal's key |
| Batch.RunWritesOutcomes | internal/reddit/client.go:348-354 | for distinct, uncached pending goals, resolving them in turn adds exactly their search outcomes to the cache and their found links to the results |
| Batch.ResolveBatches | internal/reddit/client.go:336-355 | the batch loops cache each search outcome, return the cached hits plus every found link, and follow the batch schedule |
| Batch.GoalLinks | internal/reddit/client.go:307-358 | the whole batch lookup: results hold only keys of the input goals, combining cache hits and newly found links; the cache gains exactly the outcomes of the pending goals' searches |
| Dialog.NewOverlay | internal/ui/dialog.go:37-41 | a new overlay holds no dialogs |
| Dialog.ContainsDialog | internal/ui/dialog.go:49-56 | true exactly when some open dialog has the given ID |
| Dialog.OpenDialog | internal/ui/dialog.go:59-61 | pushes the dialog on top and keeps the others in order |
| Dialog.FirstIndex | internal/ui/dialog.go:64-71 | the first position holding the ID, or the length when none does |
| Dialog.CloseDialog | internal/ui/dialog.go:64-71 | removes only the first dialog with the ID, keeping the rest in order; does nothing if none has it |
| Dialog.CloseFrontDialog | internal/ui/dialog.go:74-79 | pops the top dialog, if any, keeping the others |
| Dialog.FrontDialog | internal/ui/dialog.go:82-87 | the top dialog, or none when the stack is empty |
| Dialog.Update | internal/ui/dialog.go:91-103 | only the top dialog handles the message and is replaced by its updated self; the stack size and the other dialogs are unchanged |
| Dialog.CenterPadding | internal/ui/dialog.go:118-138 | padding is never negative, is zero when the view does not fit, and otherwise splits the spare space with the left/top half rounded down |
| Dialog.View | internal/ui/dialog.go:106-115 | nothing is drawn without dialogs; otherwise the top dialog is centred |
| Dialog.EightyPercent | internal/ui/dialog.go:143-144 | eighty percent of a size, truncated |
| Dialog.DialogSize | internal/ui/dialog.go:141-158 | each dimension is the smallest of the content size, 80% of the screen and the default maximum |
| Dialog.FrontAfterOpen | internal/ui/dialog.go:59-87 | the dialog just opened is the front dialog |
| Dialog.CloseFrontUndoesOpen | internal/ui/dialog.go:59-79 | closing the front dialog undoes an open |
| Dialog.ContainsAfterOpen | internal/ui/dialog.go:49-61 | after opening, an ID is present exactly when it was before or is the new dialog's |
| Dialog.CloseUndoesOpenOfNewId | internal/ui/dialog.go:59-71 | closing by ID undoes the open of a dialog whose ID was not yet present |
| Dialog.CloseRemovesOneMatch | internal/ui/dialog.go:64-71 | closing a present ID removes one dialog carrying it |
| Dialog.UpdateKeepsIds | internal/ui/dialog.go:91-103 | an update whose handler keeps IDs keeps which IDs are open |
| Dialog.DialogSizeMonotone | internal/ui/dialog.go:141-158 | a larger screen never gives a smaller dialog |
| ListDelegate.NextMatch | internal/ui/list_delegate.go:201-216 | a found match position lies at or after the scan start and is a case-insensitive occurrence of the filter |
| ListDelegate.NextMatchIsEarliest | internal/ui/list_delegate.go:204-215 | no occurrence is skipped between the scan start and the match found, nor after it when none is found |
| ListDelegate.HighlightMatches | internal/ui/list_delegate.go:182-193 | an empty filter, or one not contained in the text ignoring case, leaves the text as one plain segment |
| ListDelegate.MatchAtIffOccurs | internal/ui/list_delegate.go:188-207 | the rune-wise fold comparison of the loops agrees with the lower-cased containment guard |
| ListDelegate.HighlightMatchesStrips | internal/ui/list_delegate.go:182-236 | removing the highlight style gives back the title unchanged |
| ListDelegate.HighlightMatchesShape | internal/ui/list_delegate.go:195-233 | the output alternates plain and marked segments; every marked one equals the filter ignoring case, and no plain one contains a match |
| ListDelegate.HighlightMarksSomething | internal/ui/list_delegate.go:191-233 | when the guard lets a filter through, at least one span is marked |
| ListDelegate.MatchesAt | internal/ui/list_delegate.go:205-211 | the inner loop reports whether the filter matches at the position |
| ListDelegate.FindMatch | internal/ui/list_delegate.go:203-216 | the search loop returns the earliest match at or after the last index, or -1 when there is none |
| ListDelegate.HighlightLoop | internal/ui/list_delegate.go:195-235 | the scan for case-insensitive matches from the last match end produces the same segments as the recursive definition |
| ListDelegate.HighlightMatchesLoop | internal/ui/list_delegate.go:182-236 | the imperative loop computes the highlighting |
| ListDelegate.Checkbox | internal/ui/list_delegate.go:106-109 | "[x]" for a selected league, "[ ]" otherwise |
| ListDelegate.StyleFor | internal/ui/list_delegate.go:142-154 | the cursor row wins over dimming, which wins over the normal style |
| ListDelegate.Render | internal/ui/list_delegate.go:78-169 | a non-league item gets no checkbox and its filter value as title. A league item gets its checkbox in the row's style: the selected style exactly on the cursor row, dimmed exactly off it while filtering with a non-empty filter it does not match. Its title is highlighted exactly while filtering with a non-empty filter it matches, and plain otherwise |
| ListDelegate.HighlightOnlyWhenShown | internal/ui/list_delegate.go:156-159 | a title is highlighted only while filtering with a non-empty filter that the item matches |
| Layout.SplitWidth | internal/ui/list_panels.go:232-240 | left, separator and right fill the width. When the percentage share (at least the left minimum) leaves the right panel its minimum, the left panel gets exactly that share; otherwise the right panel is clamped to its minimum and the left takes the rest |
| Layout.LiveSplit | internal/ui/list_panels.go:232-240 | the live view keeps at least 35 columns on the right and fills the width |
| Layout.StatsSplit | internal/ui/list_panels.go:322-330 | the stats view keeps at least 30 columns on the right and fills the width |
| Layout.LiveLeftMinimumIff | internal/ui/list_panels.go:232-240 | the live list gets its 25 columns exactly when the terminal is at least 61 columns wide |
| Layout.StatsLeftMinimumIff | internal/ui/list_panels.go:322-330 | the stats list gets its 30 columns exactly when the terminal is at least 61 columns wide |
| Layout.NarrowTerminalShrinksLeftPanel | internal/ui/list_panels.go:236-240 | at 60 columns the live list gets 24 columns, and at 30 columns a negative width |
| Layout.EffectiveSize | internal/ui/list_panels.go:191-196 | an unset (non-positive) width or height becomes 80 or 24; set sizes are kept |
| Layout.AvailableHeight | internal/ui/list_panels.go:198-203 | three rows go to the spinner, leaving at least ten |
| Layout.LiveLayout | internal/ui/list_panels.go:189-243 | panels are two rows shorter than the available height, so at least 8 rows, and use the live split of the effective width |
| Layout.StatsLayout | internal/ui/list_panels.go:277-333 | as the live layout with the stats split; each right panel gets half the panel height, rounded down |
| Layout.DefaultTerminal | internal/ui/list_panels.go:189-333 | an unsized terminal lays out 28+1+51 columns (live) and 40+1+39 (stats), with 19-row panels and 9-row right panels |
| Layout.SpinnerAreaFor | internal/ui/list_panels.go:205-229 | the spinner is shown exactly while the view loads and a spinner exists, with "Loading..." for an empty frame; otherwise the area is `strings.Repeat("\n", 3)`, three newline characters |
| StatsList.TeamLabel | internal/ui/list_panels.go:78-85 | the short name, falling back to the full name when it is empty |
| StatsList.TwoDigits | internal/ui/list_panels.go:88 | two digits whose value is the number |
| StatsList.FormatClock | internal/ui/list_panels.go:86-89 | the kickoff renders as hh:mm |
| StatsList.ClockRoundTrip | internal/ui/list_panels.go:86-89 | parsing a formatted kickoff gives it back |
| StatsList.ParseThenFormat | internal/ui/list_panels.go:86-89 | formatting a parsed clock text gives the text back |
| StatsList.UpcomingLine | internal/ui/list_panels.go:76-97 | the line opens with two spaces and "home vs away", then " (hh:mm)" right after it when the kickoff is known, then " - league" at the end when the league is named |
| StatsList.UpcomingLines | internal/ui/list_panels.go:75-98 | one line per upcoming match, in order |
| StatsList.FormatUpcomingLine | internal/ui/list_panels.go:77-96 | the loop body builds the match's line |
| StatsList.CollectUpcomingLines | internal/ui/list_panels.go:75-98 | the loop builds the upcoming lines |
| StatsList.UpcomingSection | internal/ui/list_panels.go:69-116 | the upcoming section appears exactly for the one-day range with upcoming matches, and is never empty |
| StatsList.NoUpcomingFallbackUnreachable | internal/ui/list_panels.go:100-107 | the "No upcoming matches" fallback can never be shown: the section is exactly the match lines |
| StatsList.ListBodyFor | internal/ui/list_panels.go:46-66 | a missing API key wins; otherwise an empty list shows the no-finished-matches message, else the list |
| StatsList.DateSelector | internal/ui/list_panels.go:153-186 | options 1d and 3d in order, each highlighted exactly when it is the selected range |
| StatsList.SelectorHighlightsSelected | internal/ui/list_panels.go:163-173 | at most one option is highlighted, and one is exactly when the range is 1 or 3 |
| StatsList.RepeatCount | internal/ui/list_panels.go:133 | a repeat count is usable exactly when it is not negative |
| StatsList.StatsListPanelAsWritten | internal/ui/list_panels.go:127-142 | as written, the panel panics exactly when the upcoming section is shown and the panel is narrower than 8 columns |
| StatsList.StatsListPanel | internal/ui/list_panels.go:39-150 | selector, body and upcoming section as above, with a separator exactly when the upcoming section is shown, of width-8 columns clamped at zero |
| StatsList.CorrectedPanelAgrees | internal/ui/list_panels.go:127-142 | wherever the original does not panic, the corrected panel is identical |
| StatsList.NarrowStatsViewPanics | internal/ui/list_panels.go:322-336 | in the stats view with upcoming matches on the one-day range, rendering panics exactly for terminals 1 to 38 columns wide |
| Panels.LiveText | internal/ui/panels.go:192-195 | the live minute when known, otherwise "LIVE" |
| Panels.ListBadge | internal/ui/panels.go:189-201 | a live match gets the live badge; a finished one "FT"; any other "VS" |
| Panels.DetailsBadge | internal/ui/panels.go:330-341 | a live match gets the live badge; a finished one "Finished"; any other "Not started" |
| Panels.BadgesAgree | internal/ui/panels.go:189-341 | the list and details panels classify a match the same way |
| Panels.ScoreText | internal/ui/panels.go:215-221 | "vs" unless both scores are known |
| Panels.DigitRunEnd | internal/ui/panels.go:218 | the end of the run of digits starting at a position |
| Panels.ScoreReadsBack | internal/ui/panels.go:215-221 | the rendered score reads back as the two scores exactly when both are known and non-negative |
| Panels.MatchRow | internal/ui/panels.go:187-259 | a row shows the list badge, short names, the "h-a" score and the league, and is marked when selected |
| Panels.MatchListPanel | internal/ui/panels.go:126-185 | the empty state exactly when there are no matches; otherwise one row per match, in order, with the selected one marked |
| Panels.OneRowSelected | internal/ui/panels.go:163-168 | at most one row is marked, and one is exactly when the selection is in range |
| Panels.MultiPanelSplit | internal/ui/panels.go:87-99 | the older live view splits as the list-based one does for any set width |
| Panels.UnsetWidthGivesNegativeLeft | internal/ui/panels.go:87-99 | without the default-size guard, a zero width gives the list a negative width |
| Panels.NewestFirst | internal/ui/panels.go:380-388 | the feed lists updates newest first, each behind a bullet |
| Panels.UpdatesFeed | internal/ui/panels.go:365-388 | the spinner exactly while loading; "No updates yet" exactly when idle and empty; the lines newest first |
| Panels.NewestUpdateOnTop | internal/ui/panels.go:381-386 | the latest update is the top line and the oldest the bottom one |
| Panels.NewUpdateGoesOnTop | internal/ui/panels.go:380-388 | a new update appears above all earlier ones, which keep their order |
| Panels.ListUpdates | internal/ui/panels.go:382-386 | the descending loop builds the newest-first lines |
| Panels.DetailsPanelFor | internal/ui/panels.go:262-400 | the placeholder exactly when no match is selected; otherwise the "home vs away" title, the spaced score, the details badge, the league and the feed |
| Panels.PlayerName | internal/ui/panels.go:411-414 | the player, or "Unknown" |
| Panels.SideOf | internal/ui/panels.go:439-446 | "in" and "out" details give those sides; anything else is unknown |
| Panels.EventTextOf | internal/ui/panels.go:407-454 | goals, cards and substitutions are recognised by kind. A goal notes its assist exactly when there is one. A card is red exactly for detail "red". A substitution points in exactly for detail "in". Other kinds show their kind |
| Panels.MinuteText | internal/ui/panels.go:405 | the minute followed by an apostrophe, whose digits read back as the minute |
| Header.GradientPieces | internal/ui/design/header.go:93-104 | one unit per rune, keeping the rune; spaces unstyled; rune i styled at ratio i over max(n-1,1) |
| Header.ApplyGradient | internal/ui/design/header.go:81-107 | the text stays plain exactly when a colour fails to parse or the text is empty |
| Header.GradientKeepsText | internal/ui/design/header.go:81-107 | styling never changes the characters shown, and every blend ratio lies between 0 and 1 |
| Header.GradientLoop | internal/ui/design/header.go:93-104 | the rune loop builds the gradient units |
| Header.HeaderWithFocus | internal/ui/design/header.go:30-53 | focused headers get the gradient, others are dimmed; diagonals follow exactly when the width leaves a positive remainder, and there are that many |
| Header.FilledHeaderWidth | internal/ui/design/header.go:46-51 | a filled header spans one column less than the requested width |
| Header.HeaderCentered | internal/ui/design/header.go:58-78 | the title alone exactly when no columns remain; otherwise the remainder is split with the right fill equal to or one more than the left |
| Header.CenteredHeaderWidth | internal/ui/design/header.go:62-77 | a framed header fills exactly the requested width, with the left fill half the remainder rounded down |
| Leagues.Truncate | scripts/find_league_id.go:95-100 | a fitting name is unchanged. A longer one keeps its first max-3 bytes plus "..." for exactly max bytes. Below max 3 the slice panics |
| Leagues.TruncateIdempotent | scripts/find_league_id.go:95-100 | truncating twice is truncating once |
| Leagues.Search | scripts/find_league_id.go:51-93 | a failed request gives no results |
| Leagues.SearchResults | scripts/find_league_id.go:75-91 | results are league suggestions with pairwise distinct IDs, and every league suggestion's ID is among them |
| Leagues.FirstOfEachIdWins | scripts/find_league_id.go:85-89 | the first suggestion of each ID is the one kept |
| Leagues.ScanSuggestion | scripts/find_league_id.go:79-90 | one inner round: a league suggestion with a new ID joins the results and marks its ID seen, anything else is skipped |
| Leagues.SearchLoop | scripts/find_league_id.go:75-92 | the nested loops with their seen map compute the search result |
| Seqs.DedupBy | internal/reddit/client.go:451-459 | keeps the first element of each key, in order; keys distinct and none already seen; every unseen key kept |
| Seqs.FirstOccurrenceKept | internal/reddit/client.go:454-458 | an element whose key has not appeared earlier is kept |

## Left out

- HTTP transport, JSON decoding, header values other than the User-Agent, and `toSearchResult`: replies are given already classified, and decoding is a parameter.
- Mutexes and concurrent access to the limiter, token and cache: the model is sequential. The one lock effect within a single call, the self-deadlock of `ensureValidToken`, is modelled (see Findings).
- Network latency: a request, its reply and any later clock reading share one instant.
- `findBestMatch` is a parameter (`Matcher`). Its scoring lives outside these files.
- The goal-link cache's storage (`GoalLinkCache`, file persistence, `ClearCache`, `Cache`) is modelled as a map from goal key to found/not-found entry.
- `NewClient`, `NewClientWithDebug` and `NewClientWithFetcher` only wire a cache and the two channels; the choice between channels is modelled by `Resolver.SearchForGoal`.
- Debug logging, `NewOAuthClientWithDebug`'s logger, and other scripts and mock data: they have no effect on results.
- Unicode case folding: `strings.ToLower` and `strings.EqualFold` are modelled on ASCII letters only.
- Colours, styling, the gradient's Lab blending (floating point), `lipgloss` measurement and joining: styles are named, and widths are inputs.
- The ui `Truncate` helper applied to league names and to overlong list/event lines is not part of this model: its code lies outside these files.
- `RenderLiveMatchesListPanel` and the stats right panels (`renderMatchOverviewPanel`, `renderMatchStatisticsPanel`) are not part of this model.
- `find_league_id.go`'s `main` (argument joining, column printing) and `fmt.Sscanf` ID parsing: printing is I/O, and the parse is a parameter.
- Go's 64-bit integer overflow: all arithmetic is unbounded. Widths, minutes, scores and durations stay far from the limits.
- Time zones and the local-time conversion of `Time.Format("15:04")`: the kickoff is given as an hour and minute.
- Resolver.SearchForGoal: the final `return nil, nil` after the loop is unreachable in the model, because the loop always returns in its third round.
- Panels.ScoreReadsBack: stated for separators that do not start with a digit (the two used, "-" and "  -  "); a negative score renders with a sign and does not read back.
- Panels.MinuteText: the read-back is stated for non-negative minutes only.
- Resolver.ResolveOne: `GoalLink` discards the error results of `cache.Set` and `cache.SetNotFound`; the model assumes every cache write is stored, and `SecondCallServedFromCache`, `CachedEntriesArePermanent`, `BlockedSearchCachedAsNotFound` and the batch lemmas rest on that.
- RenewalSettles: stated for the corrected renewal; as written a granted renewal never returns, so there is no second check (see Findings).
- OAuthSearch: stated with the corrected renewal; as written a search that needs a granted renewal hangs in `ensureValidToken` and sends nothing (see Findings).
- OAuth.EnsureValidToken: the read-lock check and the write-lock recheck share one clock reading, so the double-checked locking is not modelled.

## Findings

| source | as written | input that shows it | evidently intended | confidence | as-written member | corrected member |
|---|---|---|---|---|---|---|
| internal/ui/list_panels.go:133 | the separator above the upcoming matches is `strings.Repeat("─", width-8)`, and `strings.Repeat` panics on a negative count | the stats view on a terminal 38 columns wide (left panel 7 columns) with dateRange 1 and one upcoming match | a separator of `max(width-8, 0)` columns, so narrow terminals render instead of crashing | not executed | StatsList.StatsListPanelAsWritten, StatsList.NarrowStatsViewPanics | StatsList.StatsListPanel, StatsList.CorrectedPanelAgrees |
| internal/reddit/oauth.go:223-224 | `ensureValidToken` holds `tokenMutex.Lock()` (deferred unlock) while calling `refreshToken` or `authenticate`, which call `tokenMutex.Lock()` again (oauth.go:202, 155) after a 200 reply that decodes; `sync.RWMutex` is not re-entrant, so the goroutine blocks on itself, and every later `IsAvailable` read lock blocks too | a token with access "a", no refresh token and four minutes left, and a granted password request | store the granted token without re-locking (or release the lock around the call), so a successful renewal returns the new token | not executed | OAuth.EnsureValidTokenAsWritten, OAuth.GrantedRenewalHangs | OAuth.EnsureValidToken, OAuth.AsWrittenHangsOnEveryGrant, OAuth.RenewalSettles |
