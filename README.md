# dramabox client bookkeeping in Dafny

This project models the client-side bookkeeping of the dramabox React Native app, one Dafny module per source file:

- **Rewards** (`app/rewards.tsx`, with the schedule from `data/videos.js` in **Catalog**). This is the daily check-in state machine:
  - may the user check in today, and which streak day applies;
  - the coins credited and the calendar slot claimed;
  - the ad reward with its limit of ten a day.
- **Wallet** (`app/wallet.tsx`):
  - the balance and the transaction history that the ad, top-up and rate-app handlers update;
  - the type and period filters;
  - the labels of one history row: relative date, amount sign, icon and colour.
- **Downloads** (`app/downloads.tsx`):
  - the download list with its status changes keyed by id;
  - the status filter and its three sort orders;
  - the size total, the duration text and the play guard.
- **Storage** (`services/StorageService.ts`):
  - the secure key/value store as a `map` from key to stored value;
  - the watch history, capped at 100, deduplicated by video id and updated in place;
  - favourites, per-video progress keys, the downloaded-video map and `clearAllData`.
- **Localization** (`services/LocalizationService.ts`):
  - the three-level translation lookup;
  - the duration and relative-time texts;
  - the display names, the supported-language list and right-to-left detection.
- **Player** (`components/VideoPlayer.tsx`):
  - the `m:ss` clock;
  - the play, controls and like toggles and the comment box;
  - the episode list with its lock rule.

Some helper modules support these:

- **JsNumber** models JavaScript's `Math.floor(a / d)` and its truncating `%`.
- **Strings** holds decimal rendering and parsing, `padStart(2, '0')`, `trim` and code-point ordering.
- **Seqs** holds filters, subsequences and sums.
- **Wrappers** holds `Option`.

Component state whose fields the handlers replace is a `class`: `RewardsState`, `WalletScreen`, `DownloadList`, `StorageService`, `LocalizationService` and `PlayerState`. Each handler is a method with a `modifies` clause that states its whole new state. Derived values are pure functions with lemmas about them.

The clock is always a parameter, `nowMs`, in milliseconds since the epoch. Calendar dates, such as the rewards screen's `YYYY-MM-DD` strings, are day numbers counted from 1970-01-01 in UTC; this is what `toISOString().split('T')[0]` and `new Date('YYYY-MM-DD')` compute. The wallet's "today" chip measures from local midnight, so it takes the device's UTC offset as a second parameter.

Three points where the code's behaviour may surprise a reader:

- The streak day after day 7 stays at 7 (`Math.min(dailyStreak + 1, 7)`); it does not cycle back to day 1.
- The ad limit of 10 a day is enforced by the rewards screen, while the catalogue's `watchAd.dailyLimit` is `null`.
- Nothing resets `dailyAdsWatched`, so the model has no daily reset either.

## Model

| member | source | states |
|---|---|---|
| Catalog.DailyCheckIn | dramabox/data/videos.js:189-197 | seven slots with `day == i + 1`; coins positive and strictly increasing; `bonus` exactly on day 7 |
| Catalog.FullCycleCoins | dramabox/data/videos.js:190-196 | the coins of the seven slots sum to 190 |
| Catalog.CoinPacks | dramabox/data/videos.js:164-169 | four packs; every discount is `originalPrice - price` and the price is below the original; ids are distinct; coins grow with the id |
| Catalog.SampleVideos | dramabox/data/videos.js:1-123 | each sample video's episodes are numbered 1..n with n ≤ `totalEpisodes`; the first episode is free; locked episodes form a suffix and have no watched time; video ids are distinct |
| Rewards.CoinsPerAdMatchesCatalog | dramabox/data/videos.js:198-199 | the screen's 9 coins per ad is the catalogue's `coinsPerAd` |
| Rewards.CanCheckInToday | dramabox/app/rewards.tsx:129-132 | check-in is allowed exactly when no check-in is recorded or the last one is not today's date |
| Rewards.DaysDiff | dramabox/app/rewards.tsx:137-139 | the whole number of days, rounded down, from the last check-in's midnight (2024-01-01's when missing) to now |
| Rewards.DaysDiffIsDayDistance | dramabox/app/rewards.tsx:137-139 | `daysDiff`, floored from the last check-in's midnight (2024-01-01 when missing), is exactly today's day number minus the last check-in's |
| Rewards.CurrentCheckInDay | dramabox/app/rewards.tsx:134-149 | a check-in day, when there is one, is at most 7, and at least 1 for a non-negative streak |
| Rewards.ConsecutiveDayAdvances | dramabox/app/rewards.tsx:141-143 | on the day after the last check-in the day is `min(streak + 1, 7)`; from streak 6 on it is 7 and never wraps |
| Rewards.GapResetsStreak | dramabox/app/rewards.tsx:144-146 | a gap of more than one day gives day 1 |
| Rewards.MissingLastCheckIn | dramabox/app/rewards.tsx:137-148 | with no last check-in: day 1 from 2024-01-03 on; a consecutive-day advance on 2024-01-02; none on or before 2024-01-01 |
| Rewards.NoCheckInDayIff | dramabox/app/rewards.tsx:134-149 | there is no check-in day exactly when today is already checked in or the last check-in is not before today |
| Rewards.SecondCheckInSameDay | dramabox/app/rewards.tsx:129-132 | once `lastCheckIn` is today, `canCheckInToday` is false and there is no check-in day, so a second check-in changes nothing |
| Rewards.MarkClaimed | dramabox/app/rewards.tsx:178-182 | only slot `day - 1` becomes claimed and stamped with today; every other slot and the length are unchanged |
| Rewards.MarkClaimedFollowsSchedule | dramabox/app/rewards.tsx:178-182 | claiming a slot keeps the calendar in line with the seven-slot schedule |
| Rewards.ClaimedHistory | dramabox/app/rewards.tsx:347-351 | the history tab lists exactly the claimed slots, in decreasing schedule day when the calendar's days increase |
| Rewards.ScheduleDaysIncrease | dramabox/app/rewards.tsx:65-69 | a calendar built from the schedule has increasing days, slot i being day i + 1 |
| Rewards.ScheduledHistoryNewestFirst | dramabox/app/rewards.tsx:347-351 | for a calendar in line with the schedule, as every valid state has, the history tab lists the claimed slots latest day first |
| Rewards.RewardsState.constructor | dramabox/app/rewards.tsx:59-69 | 1250 coins, a five-day streak, last check-in 2024-06-27, 45 and 2 ads, days 1-5 claimed on 2024-06-23 to 2024-06-27 |
| Rewards.RewardsState.HandleCheckIn | dramabox/app/rewards.tsx:151-183 | with no check-in day nothing changes; otherwise it credits that day's scheduled coins, sets the streak to the day and the last check-in to today, and claims that slot; the ad counters are unchanged |
| Rewards.RewardsState.WatchAdForCoins | dramabox/app/rewards.tsx:192-215 | refused exactly when 10 ads were already rewarded today; otherwise +9 coins and +1 on both ad counters; nothing else changes |
| Rewards.SevenConsecutiveCheckIns | dramabox/app/rewards.tsx:151-183 | seven check-ins on consecutive days after a missed day earn 190 coins and end at streak 7 |
| Rewards.WeekAfterStartingState | dramabox/app/rewards.tsx:59-69 | from the screen's starting state, a week of daily check-ins beginning any day after 2024-06-28 ends with 1250 + 190 coins and streak 7 |
| Wallet.Cutoff | dramabox/app/wallet.tsx:281-295 | the cutoff is not after now; for `today` it is the latest local midnight, less than a day before now |
| Wallet.FilteredTransactions | dramabox/app/wallet.tsx:274-300 | an order-preserving subsequence holding exactly the transactions of the chosen type made at or after the cutoff; `all`/`all` gives the whole list |
| Wallet.FilteredIsOneFilter | dramabox/app/wallet.tsx:274-300 | the type filter followed by the period filter equals a single filter by both tests |
| Wallet.FormatDate | dramabox/app/wallet.tsx:303-313 | "Just now" under an hour (and for a future time); the locale date from seven days on |
| Wallet.FormatDateBuckets | dramabox/app/wallet.tsx:303-313 | under an hour "Just now"; 1-23 whole hours "{h}h ago"; 1-6 whole days "{d}d ago"; else the locale date; hours and days both floored |
| Wallet.NestedFloor | dramabox/app/wallet.tsx:306-307 | flooring hours and then dividing by 24 gives the whole days |
| Wallet.FormatAmount | dramabox/app/wallet.tsx:364 | a leading '+' exactly when the amount is positive, followed by the amount |
| Wallet.TransactionIcon | dramabox/app/wallet.tsx:315-323 | the help icon exactly for a type outside the four known ones |
| Wallet.TransactionColor | dramabox/app/wallet.tsx:325-333 | grey exactly for a type outside the four known ones |
| Wallet.IconsAndColoursTellTypesApart | dramabox/app/wallet.tsx:315-333 | different transaction types get different icons and different colours |
| Wallet.WalletScreen.constructor | dramabox/app/wallet.tsx:51-126 | the starting wallet (245 coins, Silver, expiry in 15 days) and seven mock transactions, all in the past |
| Wallet.WalletScreen.WatchAd | dramabox/app/wallet.tsx:206-215 | +9 on the balance; one completed `earned` transaction of 9 in front; the rest of the history and the wallet unchanged; the list's coverage of the balance unchanged |
| Wallet.WalletScreen.RateApp | dramabox/app/wallet.tsx:238 | +50 on the balance with no transaction, so the unrecorded share grows by 50 |
| Wallet.WalletScreen.HandleTopUp | dramabox/app/wallet.tsx:255-266 | +`pack.coins` on the balance; one completed `purchased` transaction of that amount in front; the sheet closed |
| Downloads.TotalSize | dramabox/app/downloads.tsx:90-94 | the sum of each item's size when completed and 0 otherwise; non-negative when all sizes are |
| Downloads.TotalSizeCountsCompleted | dramabox/app/downloads.tsx:90-94 | filtering the completed items and adding their sizes equals adding every item's completed size |
| Downloads.TotalSizeConcat | dramabox/app/downloads.tsx:90-94 | the total of a concatenation is the sum of the totals |
| Downloads.FilterDownloads | dramabox/app/downloads.tsx:99-106 | an order-preserving subsequence keeping exactly the downloading or paused items, the completed ones, or everything |
| Downloads.BeforeTotal | dramabox/app/downloads.tsx:108-116 | each comparator relates any two items one way or the other |
| Downloads.BeforeTransitive | dramabox/app/downloads.tsx:108-116 | each comparator is transitive |
| Downloads.Insert | dramabox/app/downloads.tsx:108-116 | inserting into a sorted list gives a sorted list with that one item more |
| Downloads.SortDownloads | dramabox/app/downloads.tsx:108-116 | a permutation, sorted by ascending title, non-increasing size or non-increasing `downloadedAt` |
| Downloads.FilteredDownloads | dramabox/app/downloads.tsx:96-117 | sorted by the chosen order; it holds each item the chip keeps as often as the list does, and no other item |
| Downloads.WithStatus | dramabox/app/downloads.tsx:119-129 | only the items with that id get the new status; length and every other item unchanged |
| Downloads.PauseThenResume | dramabox/app/downloads.tsx:119-129 | pausing and then resuming downloading items gives back the same list |
| Downloads.WithStatusKeepsTotal | dramabox/app/downloads.tsx:119-129 | pausing or resuming an item that is not completed keeps the size total |
| Downloads.WithoutId | dramabox/app/downloads.tsx:141 | exactly the items with that id are gone; the rest keep their order and multiplicity |
| Downloads.WithoutCompleted | dramabox/app/downloads.tsx:175 | all and only the completed items are gone, so the size total is 0 |
| Downloads.PlayRoute | dramabox/app/downloads.tsx:182-186 | a route to `/video/{videoId}` exactly for a completed item |
| Downloads.FormatDuration | dramabox/app/downloads.tsx:80-88 | the text always ends in ":00" |
| Downloads.FormatDurationFields | dramabox/app/downloads.tsx:80-88 | "{h}:{mm}:00" from one whole hour on, else "{m}:00", with the minutes left over in 0..59 and the seconds dropped |
| Downloads.DownloadList.constructor | dramabox/app/downloads.tsx:36-39 | no downloads, sorted by recency, unfiltered |
| Downloads.DownloadList.PauseDownload | dramabox/app/downloads.tsx:119-123 | the list becomes `WithStatus(old, id, paused)`; the sort and the filter are unchanged |
| Downloads.DownloadList.ResumeDownload | dramabox/app/downloads.tsx:125-129 | the list becomes `WithStatus(old, id, downloading)` |
| Downloads.DownloadList.CancelDownload | dramabox/app/downloads.tsx:131-146 | the list becomes the old one without that id |
| Downloads.DownloadList.DeleteDownload | dramabox/app/downloads.tsx:148-163 | the list becomes the old one without that id |
| Downloads.DownloadList.ClearCompleted | dramabox/app/downloads.tsx:165-180 | the list becomes the old one without its completed items; the size total becomes 0 |
| Downloads.DownloadList.GetFilteredDownloads | dramabox/app/downloads.tsx:96-117 | returns `FilteredDownloads`; with the `all` chip the in-place sort also reorders the stored list, which stays a permutation |
| Storage.ProgressKey | dramabox/services/StorageService.ts:164 | the key is "progress_" followed by the video id |
| Storage.ProgressKeyInjective | dramabox/services/StorageService.ts:164 | different videos have different progress keys |
| Storage.ClearedKeysAreSix | dramabox/services/StorageService.ts:255-262 | `clearAllData` names six distinct keys |
| Storage.ProgressKeysAreNotCleared | dramabox/services/StorageService.ts:255-262 | no progress key is among them |
| Storage.FindIndex | dramabox/services/StorageService.ts:64 | the first index with that video id, or none exactly when no entry has it |
| Storage.Merge | dramabox/services/StorageService.ts:66-68 | the new item's fields override, `watchedAt` is now, and a genre the item lacks comes from the existing entry |
| Storage.AddedToHistory | dramabox/services/StorageService.ts:61-80 | at most 100 entries; a new video goes in front with the old entries after it; an existing one is merged at its own index with every other entry unchanged |
| Storage.AddedVideoIsListed | dramabox/services/StorageService.ts:64-75 | from a history within the cap, the added video is on the list afterwards |
| Storage.AddKeepsVideoIdsUnique | dramabox/services/StorageService.ts:64-71 | a history without repeated video ids stays so |
| Storage.AddTwiceUpdatesInPlace | dramabox/services/StorageService.ts:64-71 | adding the same video again finds its entry and does not grow the list |
| Storage.AddedFavorite | dramabox/services/StorageService.ts:222-226 | the id is in the result; appended only when absent; no duplicates are introduced |
| Storage.AddFavoriteIdempotent | dramabox/services/StorageService.ts:222-226 | adding a favourite twice is adding it once |
| Storage.RemoveUndoesAdd | dramabox/services/StorageService.ts:220-240 | removing a just-added favourite gives back the original list |
| Storage.StorageService.GetWatchHistory | dramabox/services/StorageService.ts:82-90 | the stored history, or an empty one |
| Storage.StorageService.GetFavorites | dramabox/services/StorageService.ts:242-250 | the stored favourites, or an empty list |
| Storage.StorageService.GetDownloadedVideos | dramabox/services/StorageService.ts:199-207 | the stored map, or an empty one |
| Storage.StorageService.AddToWatchHistory | dramabox/services/StorageService.ts:61-80 | writes `AddedToHistory` of the read history under the history key and nothing else; the cap holds afterwards |
| Storage.StorageService.ClearWatchHistory | dramabox/services/StorageService.ts:92-98 | the history key is deleted and nothing else |
| Storage.StorageService.RemoveFromWatchHistory | dramabox/services/StorageService.ts:100-108 | every entry for that video goes; the rest keep their order; the cap is kept |
| Storage.StorageService.AddToFavorites | dramabox/services/StorageService.ts:220-230 | no write when the id is present; otherwise the id is appended and written back |
| Storage.StorageService.RemoveFromFavorites | dramabox/services/StorageService.ts:232-240 | every occurrence of the id goes and the others stay |
| Storage.StorageService.SaveVideoProgress | dramabox/services/StorageService.ts:156-168 | one write under the video's key; reading back gives the saved pair; no other video's progress nor the history, favourites or downloads change |
| Storage.StorageService.GetVideoProgress | dramabox/services/StorageService.ts:170-182 | the stored progress and duration for that video, or none |
| Storage.StorageService.SaveDownloadedVideo | dramabox/services/StorageService.ts:185-197 | the map gains or replaces that video's entry; no other entry changes |
| Storage.StorageService.RemoveDownloadedVideo | dramabox/services/StorageService.ts:209-217 | that video's entry is gone; no other entry changes |
| Storage.StorageService.ClearAllData | dramabox/services/StorageService.ts:253-270 | exactly the six keys are deleted; every other key, and so every video's progress, stays |
| Localization.Lookup | dramabox/services/LocalizationService.ts:649-663 | the current language's entry when non-empty, else English's when non-empty, else the non-empty fallback, else the key; never empty for a non-empty key |
| Localization.PlaceholderReadsAsEnglish | dramabox/services/LocalizationService.ts:630-635 | in hi, ja, fr, de, pt and ar, whose tables are empty, every key reads as in English |
| Localization.MissingKeyReadsAsFallback | dramabox/services/LocalizationService.ts:661-662 | a key with no usable entry in any language reads as the fallback or as itself |
| Localization.FormatDuration | dramabox/services/LocalizationService.ts:668-681 | from one hour on the text ends with the minutes letter, so no seconds field shows; below an hour it ends with the seconds letter |
| Localization.FormatDurationFields | dramabox/services/LocalizationService.ts:669-681 | an exact split into hours, minutes in 0..59 and seconds in 0..59; "{h}{u} {m}{u}" from an hour, "{m}{u} {s}{u}" from a minute, else "{s}{u}" |
| Localization.FormatRelative | dramabox/services/LocalizationService.ts:684-702 | the text always ends in " ago" |
| Localization.FormatRelativeUnits | dramabox/services/LocalizationService.ts:684-702 | days from one whole day of age, hours from one hour, minutes from one minute, else seconds, each the floored age in that unit |
| Localization.DisplayName | dramabox/services/LocalizationService.ts:705-720 | the table's native name; it is never empty, so the code never shows |
| Localization.SupportedLanguages | dramabox/services/LocalizationService.ts:728-733 | ten entries, each language exactly once, each with its display name |
| Localization.LocalizationService.constructor | dramabox/services/LocalizationService.ts:638-639 | the service starts in English |
| Localization.LocalizationService.SetLanguage | dramabox/services/LocalizationService.ts:641-643 | the current language becomes the one given |
| Localization.LocalizationService.GetCurrentLanguage | dramabox/services/LocalizationService.ts:645-647 | returns the current language |
| Localization.LocalizationService.Translate | dramabox/services/LocalizationService.ts:649-666 | `Lookup` in the current language; never empty for a non-empty key |
| Localization.LocalizationService.FormatTime | dramabox/services/LocalizationService.ts:668-681 | in the current language, for a non-negative duration: "{h}{u} {m}{u}" from an hour, "{m}{u} {s}{u}" from a minute, else "{s}{u}", over the exact split with minutes and seconds in 0..59 |
| Localization.LocalizationService.FormatRelativeTime | dramabox/services/LocalizationService.ts:684-702 | in the current language: the floored age in days from one day, in hours from one hour, in minutes from one minute, else in seconds, followed by the translated unit and " ago" |
| Localization.LocalizationService.IsRTL | dramabox/services/LocalizationService.ts:723-725 | true exactly in Arabic |
| Localization.SetThenGet | dramabox/services/LocalizationService.ts:641-647 | after setting a language, reading it gives that language, and right-to-left holds exactly for Arabic |
| Player.FormatClock | dramabox/components/VideoPlayer.tsx:117-121 | at least four characters: minutes, a colon, two padded digits |
| Player.FormatClockRoundTrip | dramabox/components/VideoPlayer.tsx:117-121 | for a non-negative time, the text splits at the colon into digits reading back as `seconds / 60` and `seconds % 60` (in 0..59), which recombine to the seconds |
| Player.TwoDigits | dramabox/components/VideoPlayer.tsx:119-120 | a number below 60, padded to two, is two digits reading back as itself |
| Player.EpisodeCount | dramabox/components/VideoPlayer.tsx:138 | a missing or zero count gives 12 rows; a positive count gives that many; a negative one none |
| Player.CurrentEpisode | dramabox/components/VideoPlayer.tsx:143 | a missing or zero episode counts as 1 |
| Player.EpisodeRows | dramabox/components/VideoPlayer.tsx:138-151 | row i is episode i + 1, titled "{title} - Part {i + 1}", marked current exactly at the current episode and locked exactly after it |
| Player.LocksFormATail | dramabox/components/VideoPlayer.tsx:150-152 | once a row is locked every later row is; the first row is open for a current episode of at least 1 |
| Player.PlayerState.LikesDisplayed | dramabox/components/VideoPlayer.tsx:380 | the count shown is `likes + 1` exactly when liked, else `likes` |
| Player.PlayerState.constructor | dramabox/components/VideoPlayer.tsx:45-61 | playing, controls hidden, not liked, three sample comments, empty draft |
| Player.PlayerState.TogglePlayPause | dramabox/components/VideoPlayer.tsx:76-83 | flips `isPlaying`; nothing else changes |
| Player.PlayerState.HandleScreenPress | dramabox/components/VideoPlayer.tsx:85-87 | flips `showControls`; nothing else changes |
| Player.PlayerState.HandleLike | dramabox/components/VideoPlayer.tsx:89-104 | flips `isLiked`, so the shown count moves by one; nothing else changes |
| Player.PlayerState.EditComment | dramabox/components/VideoPlayer.tsx:284-285 | the draft becomes the typed text |
| Player.PlayerState.HandleAddComment | dramabox/components/VideoPlayer.tsx:224-236 | a blank draft changes nothing; otherwise a comment with the trimmed, non-blank text by "You" with 0 likes is put in front, the list grows by one and the draft is cleared |
| Strings.Trim | dramabox/components/VideoPlayer.tsx:225 | `trim`: the result is a slice without leading or trailing white space, empty exactly for a blank string |
| Strings.LexLeTotal | dramabox/app/downloads.tsx:110 | the code-point title order relates any two titles |
| Strings.LexLeTransitive | dramabox/app/downloads.tsx:110 | the code-point title order is transitive |
| Strings.LexLeAntisymmetric | dramabox/app/downloads.tsx:110 | in code-point order, two titles ordered both ways are equal |
| Strings.ParseNatToString | dramabox/components/VideoPlayer.tsx:120 | a number's decimal text reads back as the number |
| JsNumber.Rem | dramabox/components/VideoPlayer.tsx:119 | JavaScript's `%`: the remainder lies strictly between `-d` and `d`, takes the dividend's sign, and equals the Euclidean remainder for a non-negative dividend |

## Left out

- The screens themselves are not modelled: layout, styles, navigation, `Animated` sequences, `Alert` confirmations, `Modal` visibility and `setTimeout` delays. Each handler is modelled as its confirmed effect.
- `services/ApiService.ts`, `services/NotificationService.ts`, `components/AppInitializer.tsx`, `app/auth.tsx`, `app/subscription.tsx` and the tab screens are not part of this model. They are network calls, native notifications, start-up or pure layout.
- `getLevelProgress` (wallet), the achievement percentage (rewards), download progress percentages and `formatFileSize` are left out; they are floating-point arithmetic. `DownloadItem` has no `progress` field for the same reason.
- Storage.WatchHistoryItem: the history entry's `progress` fraction and the saved playback `progress`/`duration` are carried as `real` values and not computed on.
- `loadDownloads` is left out, so the download list starts empty. Its mock data is drawn with `Math.random`.
- Storage.StorageService: SecureStore's asynchronous I/O, JSON encoding and the `try`/`catch` error paths are left out.
  - An absent key reads as the service's empty default, as a missing key or a failed parse does in the source.
  - The model assumes each service key holds only the shape the service itself writes. In the source the getters pass well-formed JSON of another shape through unchanged, and `addToWatchHistory`/`addToFavorites` then throw on `findIndex`/`includes`, catch the error and write nothing; the model instead reads such a key as the empty default and writes a fresh list over it.
  - A download's `metadata` object is carried as opaque text.
- `saveSettings`/`getSettings`, `saveUserProfile`/`getUserProfile` and the auth-token methods of `services/StorageService.ts` are not modelled. Each is a single write or read of one key; their keys appear in `Storage.ClearedKeys`.
- Dates and time zones:
  - Rewards.DayOf: calendar dates are UTC day numbers, as `toISOString` gives them.
  - Wallet.Cutoff: `week` and `month` are exact 7- and 30-day offsets in milliseconds; daylight-saving changes in the local calendar are not modelled.
  - Wallet.FormatDate: the `toLocaleDateString` text is a parameter.
  - Player.FormatClock: the clock takes whole seconds. The source floors the seconds at line 119, and the episode sheet's `totalEpisodes`/`episode` are modelled as optional integers.
- Rewards.RewardsState.WatchAdForCoins: the limit is exact only for ads watched one at a time. The source tests `dailyAdsWatched >= 10` on the rendered state when the ad is tapped and applies the credit two seconds later to the latest state, so a second ad confirmed before the first credit arrives passes the test on a stale count and the counter can pass 10; the model makes the test and the credit one step.
- Localization.FormatDuration: takes whole seconds. The source's `formatTime` accepts a fractional number and does not floor `seconds % 60`, so a fraction is printed in the seconds field (90.5 gives "1m 30.5s").
- Rewards.RewardsState.HandleCheckIn requires `Valid()` (streak in 0..7, calendar of seven slots); this is the state the screen starts in and every handler keeps.
- Localization: the translation table is a parameter of the service.
  - `t` is the same function as `translate`.
  - `getSupportedLanguages` depends on the order of the table's keys, which is fixed here as the source lists them.
  - Localization.UnitLetter: JavaScript's `[0]` takes a UTF-16 code unit, whereas a Dafny `char` is a whole Unicode scalar value; the two agree for the shipped unit names.
- Downloads.SortDownloads: `localeCompare` is modelled as code-point order on titles. Strings.LexLeTotal, Strings.LexLeTransitive and Strings.LexLeAntisymmetric are proved of that stand-in; `localeCompare` itself is not antisymmetric, since canonically equivalent but different titles compare equal. The sort is proved sorted and a permutation, but stability is not stated.
- Player: calls into the video element, the share sheet and `toLocaleString` of the like count are left out.
- Wallet.WalletScreen: the three screens' coin counters are separate, as in the source. The wallet's starting balance of 245 is not the sum of its mock transactions, so the model tracks the unrecorded share (`Unrecorded`) rather than claiming the list accounts for the balance.
