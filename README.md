# komga-discord, modelled in Dafny

komga-discord is a bot that connects a Komga comic server to a Discord guild. It has two jobs:

- **Newsletter job** (`write_komga_recently_added`):
  - gathers the series and issues added in the last eight days;
  - downloads their covers into a dated directory;
  - writes an HTML page from a Handlebars template;
  - posts an embed that links to the page.
- **Stats job** (`update_komga_stats`): replaces two voice channels whose names show the series and issue counts.

A small Rocket file server publishes the newsletter directory. The settings module builds the Komga HTTP client (Basic authentication) and layers the configuration sources.

This project models the decision logic of `src/main.rs` and `src/settings.rs` and proves properties of it. By module:

- **`Libraries`**: library-name resolution.
- **`Recent`**: the recent-item windows. Both are prefix cuts (`take_while`), not filters, and the boundary is strict. The issue window sorts and reverses an `array` in place, as the source sorts its `Vec`.
- **`Chat`**: the Discord side.
  - The class `Chat.Discord` holds the guild list, the first guild's channel list, the next channel id and a log of every mutating request.
  - `get_guild`, `get_discord_channel_id`, `find_or_create_channel` and `replace_stat_channels` are modelled as members of that class. Because of the log, "all deletions precede all creations" is a statement about that log.
- **`Stats`**: the stats job.
- **`Paths`**: the paths and URLs the writer produces and those the two routes open.
- **`Newsletter`**: the newsletter job, over a `FileStore` object (the directories and the files with their contents).
- **`Settings`**, **`Base64`** and **`Utf8`**: the Authorization header (section 2 of RFC 7617, with the padded standard alphabet of section 4 of RFC 4648), the default headers, the `Configuration` mapping and the layering of sources.
- **`Decimal`**: `usize::to_string` for the embed's counts.

Representations and abstractions:

- Timestamps are integers, in nanoseconds on one time line (the resolution of a `chrono::DateTime`).
- A metric value is the text that the bot prints.
- Komga's answers, the cover downloads and the three clock readings of the newsletter job are parameters of the jobs.
- A `panic!` (an `expect`/`unwrap` that fires) is modelled by the outcome `Panicked`.
- Anything that `?` returns is modelled by `Failed`/`Fail`/`Failure`.

## Model

| member | source | states |
|---|---|---|
| Libraries.MatchingIds | src/main.rs:346-352 | never more ids than libraries |
| Libraries.MatchingIdsMembers | src/main.rs:346-352 | an id is kept exactly when a library with that id has a name in the configured list |
| Libraries.GetLibraryIds | src/main.rs:338-353 | no names gives `None` without a request; a failed request is passed on; otherwise `Some` of exactly the ids of named libraries |
| Libraries.MatchingIdsAppend | src/main.rs:346-352 | resolution keeps library-list order (it distributes over concatenation) |
| Libraries.UnmatchedNamesDropped | src/main.rs:346-352 | names no library carries change nothing and raise no error |
| Libraries.AllNamedKeepsAll | src/main.rs:346-352 | when every library is named, every id comes back, in order |
| Recent.Cutoff | src/main.rs:170-173 | the cutoff lies exactly eight days before now |
| Recent.TakeWhile | src/main.rs:330-334 | the result is a prefix, every element qualifies, and the next element does not |
| Recent.RecentSeries | src/main.rs:312-336 | new series: a prefix of the server list, all created strictly after the cutoff, cut at the first one that is not |
| Recent.RecentSeriesIsLongest | src/main.rs:330-334 | no longer prefix of qualifying series exists |
| Recent.SeriesBoundaryExcluded | src/main.rs:330-334 | a series created exactly at the cutoff, and everything after it, is excluded |
| Recent.RecentSeriesIsNotAFilter | src/main.rs:330-334 | a qualifying series after a non-qualifying one is dropped |
| Recent.CreatedAfter | src/main.rs:330-333 | defines the series test of the window: created strictly after the cutoff (`gt`) |
| Recent.Insert | src/main.rs:260 | one insertion step of the sort; it adds exactly one element (`InsertMultiset`, `InsertAscending`, `InsertStable`) |
| Recent.InsertMultiset | src/main.rs:260 | an insertion adds exactly its book to the multiset |
| Recent.InsertAscending | src/main.rs:260 | inserting into an ascending list keeps it ascending |
| Recent.InsertStable | src/main.rs:260 | among books of one key, the inserted book goes last |
| Recent.SortByCreated | src/main.rs:260 | the sort by the `created` key keeps the length; order, permutation and stability are the three lemmas below |
| Recent.SortByCreatedAscending | src/main.rs:260 | the sort orders by `created`, ascending |
| Recent.SortByCreatedPermutes | src/main.rs:260 | the sort is a permutation |
| Recent.SortByCreatedStable | src/main.rs:260 | the sort is stable: books with equal keys keep their relative order |
| Recent.InsertAt | src/main.rs:260 | insertion puts the key after the last element not greater than it and before the greater suffix |
| Recent.ShiftRight | src/main.rs:260 | the scan moves exactly the greater elements of the sorted prefix one place right and stops after a key not greater |
| Recent.InsertInPlace | src/main.rs:260 | one insertion step on the array yields the insertion of the spec function |
| Recent.SortInPlace | src/main.rs:260 | the in-place sort leaves exactly `SortByCreated` of the original array |
| Recent.Reversed | src/main.rs:261 | `reverse`: keeps the length; `ReversedIndex` and `ReversedMultiset` give its contents |
| Recent.ReversedIndex | src/main.rs:261 | element `i` of the reversal is element `n - 1 - i` of the input |
| Recent.ReversedMultiset | src/main.rs:261 | reversing is a permutation |
| Recent.ReverseInPlace | src/main.rs:261 | the in-place reverse leaves exactly the reversed original array |
| Recent.NewestFirst | src/main.rs:260-261 | defines the order the issue window cuts: sort by `created`, then reverse (`NewestFirstOrder`) |
| Recent.NewestFirstOrder | src/main.rs:260-261 | sort then reverse is descending by `created` and a permutation |
| Recent.NewestFirstPrefix | src/main.rs:262-268 | any prefix of the newest-first order is descending and drawn from the fetched books |
| Recent.ModifiedAfter | src/main.rs:263-266 | defines the issue test of the window: file last modified strictly after the cutoff (`gt`) |
| Recent.RecentBooks | src/main.rs:238-270 | new issues: a prefix of the newest-first order, each modified strictly after the cutoff, descending, no longer than and drawn from the fetched books |
| Recent.RecentBooksIsNotAFilter | src/main.rs:262-268 | a recently modified issue is dropped when a stale one sorts before it |
| Chat.FindByName | src/main.rs:362 | the first position of a channel with that exact name, or none exactly when no channel has it |
| Chat.StartsWith | src/main.rs:138-141 | defines `str::starts_with` by characters (`StartsWithIsPrefix`) |
| Chat.StartsWithIsPrefix | src/main.rs:138-141 | `starts_with` holds exactly when the prefix is a prefix of the name |
| Chat.StartsWithConcat | src/main.rs:146-152 | a name built as `prefix + value` starts with the prefix |
| Chat.CategoryId | src/main.rs:368-383 | defines the id `find_or_create_channel` returns: the first match's, or the next id (`FindOrCreateChannel`) |
| Chat.WithCategory | src/main.rs:368-383 | defines the channel list after `find_or_create_channel`: unchanged, or the new category appended |
| Chat.CategoryCreates | src/main.rs:368-383 | defines the requests of `find_or_create_channel`: none, or one category creation |
| Chat.Discord.GetGuild | src/main.rs:385-391 | an error exactly when the guild list is empty, else the first guild |
| Chat.Discord.GetDiscordChannelId | src/main.rs:355-366 | no guild or no channel of that exact name is an error; otherwise the id of the first such channel |
| Chat.Discord.FindOrCreateChannel | src/main.rs:368-383 | an existing name gives the first such id and changes nothing; otherwise exactly one Category channel is created and its id returned |
| Chat.FindOrCreateIdempotent | src/main.rs:368-383 | a second find-or-create finds what the first found or made: one category, the same id |
| Chat.Discord.DeleteChannel | src/main.rs:139 | the list loses the channel with that id; one DeleteCall is logged |
| Chat.Discord.CreateChannel | src/main.rs:149 | the new channel gets the next id and is appended; one CreateCall is logged |
| Chat.Discord.SendMessage | src/main.rs:207 | one send request is logged and the channels are unchanged |
| Chat.Without | src/main.rs:139 | defines the list after one deletion: every channel but those with that id, in order; never longer |
| Chat.Discord.DeleteIf | src/main.rs:138-142 | a matching test deletes that id and logs one DeleteCall; otherwise nothing changes |
| Chat.Discord.DeletePrefixed | src/main.rs:138-143 | one channel of the pass: the series test, then the issues test, each deleting on a match |
| Chat.Discord.DeleteStaleChannels | src/main.rs:136-144 | after the pass the list is `Kept(snapshot)` and the log gained exactly the pass's deletes, in snapshot order |
| Chat.Discord.CreateStatChannel | src/main.rs:145-156 | a present metric gets one Voice channel `prefix + value` in the category with the next id; an absent one nothing |
| Chat.Discord.CreateStatChannels | src/main.rs:145-156 | series channel first, then issues, each `prefix + value`, Voice, in the category |
| Chat.Discord.ReplaceStatChannels | src/main.rs:129-158 | no guild: an error and nothing changes; otherwise the kept channels plus the new stat channels, and the deletes logged before the creates |
| Chat.Kept | src/main.rs:137-144 | defines the survivors of the deleting pass: the snapshot channels no present metric's test matches, in order; never more than the snapshot (`KeptPrefixed`, `UnrelatedChannelsKept`, `KeptSubset`) |
| Chat.DeleteCalls | src/main.rs:137-144 | defines the delete requests of the pass, channel by channel (`DeleteCallsOncePerChannel`, `DeleteCallsAreDeletes`) |
| Chat.DeleteCallsAreDeletes | src/main.rs:137-144 | the pass sends only delete requests |
| Chat.DeletePass | src/main.rs:137-143 | defines one iteration of the pass: the series test, then the issues test, each deleting that id |
| Chat.PassEnds | src/main.rs:137-144 | after the last iteration the list is `Kept` of the snapshot |
| Chat.NewStatChannels | src/main.rs:145-156 | defines the channels created: one per present metric, series first, with consecutive ids (`StatNamePrefixes`, `SeriesAfterReplacement`) |
| Chat.CreateCalls | src/main.rs:145-156 | defines the creation requests: one Voice channel `prefix + value` in the category per present metric, series first |
| Chat.PrefixesDisjoint | src/main.rs:20-21 | the two prefixes differ, neither starts the other, and no name carries both |
| Chat.StatNamePrefixes | src/main.rs:146-152 | a created stat name carries its own prefix and not the other |
| Chat.DeleteCallsOncePerChannel | src/main.rs:138-143 | each channel draws at most one delete request in a pass |
| Chat.KeptPrefixed | src/main.rs:137-144 | with a metric present no channel with its prefix survives; with it absent its channels are untouched |
| Chat.SeriesAfterReplacement | src/main.rs:137-156 | after a replacement the series-prefixed channels are exactly the one new channel (metric present) or the old ones (absent) |
| Chat.BooksAfterReplacement | src/main.rs:137-156 | the same for the issues prefix |
| Chat.UnrelatedChannelsKept | src/main.rs:137-144 | a channel matching neither prefix is never deleted |
| Chat.NoMetricsKeepsAll | src/main.rs:137-144 | with both metrics absent the pass deletes nothing |
| Chat.DeletionsPrecedeCreations | src/main.rs:136-156 | in the requests of a replacement every delete comes before every create |
| Chat.KeptSubset | src/main.rs:137-144 | survivors are snapshot channels the pass does not match |
| Chat.WithoutKeepsDistinct | src/main.rs:139 | deleting keeps channel ids distinct |
| Stats.FirstValue | src/main.rs:126 | `measurements.first()`: none exactly for an empty measurement list, else the first value |
| Stats.UpdateStats | src/main.rs:113-127 | a failed metric request ends the job with no Discord request; otherwise find-or-create the category, then replace the stat channels inside it |
| Stats.RefreshStatChannels | src/main.rs:125-126 | the lookup requests come first, then the pass's deletes, then the creates, and the final channel list follows |
| Paths.Split | src/main.rs:45-51 | a path splits into at least one segment, none containing '/' |
| Paths.JoinSplit | src/main.rs:45-51 | joining the segments gives back the path |
| Paths.Parent | src/main.rs:217-218 | the directory part exists exactly when the path has a '/', and is a proper prefix |
| Paths.ParentOfChild | src/main.rs:279 | the parent of `dir/name` is `dir` when the name has no '/' |
| Paths.Ancestors | src/main.rs:180 | what `create_dir_all(p)` leaves: `p` itself and only non-empty prefixes of it |
| Paths.WrittenFilesHaveCreatedParents | src/main.rs:169-180 | the page's parent is the newsletter directory and both cover kinds live directly under the thumbnails directory, all made at line 180 |
| Paths.ThumbnailsDistinct | src/main.rs:279-299 | a series cover and an issue cover never share a path |
| Paths.ThumbnailPathsInjective | src/main.rs:279-299 | different ids give different cover paths |
| Paths.CoverEndpointsDistinct | src/main.rs:281-301 | series and issue cover endpoints never coincide |
| Paths.CoverEndpointsInjective | src/main.rs:281-301 | different ids give different cover endpoints |
| Paths.MetricEndpointsDistinct | src/main.rs:116-121 | the two metric endpoints differ |
| Paths.ServedFile | src/main.rs:45-59 | a request is served only under `/recently_added/`, with two segments for the page route or four with `thumbnails` for the cover route |
| Paths.ServedIndex | src/main.rs:193 | the newsletter link is served as exactly the page path the writer writes |
| Paths.ServedSeriesImage | src/main.rs:194 | the embed's image link is served as exactly the series cover the writer writes |
| Paths.ServedBookThumbnail | src/main.rs:299 | every issue cover the writer writes is reachable through the cover route |
| Paths.RoutesDoNotSanitise | src/main.rs:47 | a `..` date passes through to the file path unchanged |
| Paths.NewsletterDir | src/main.rs:169 | defines `<content_dir>/komga/recently_added/<date>`, the newsletter's directory |
| Paths.ThumbnailDir | src/main.rs:169 | defines the thumbnails directory `<newsletter dir>/thumbnails` |
| Paths.IndexPath | src/main.rs:217 | defines the page path `<newsletter dir>/index.html` |
| Paths.SeriesThumbnailPath | src/main.rs:279 | defines the series cover path `<thumbnails dir>/series-<id>.jpg` |
| Paths.BookThumbnailPath | src/main.rs:299 | defines the issue cover path `<thumbnails dir>/book-<id>.jpg` |
| Paths.IndexIsNotACover | src/main.rs:217-299 | the page path is never a series or issue cover path |
| Paths.TemplatePath | src/main.rs:222 | defines the template file `<templates_dir>/komga/recently_added.html.hbs` |
| Paths.NewsletterUrl | src/main.rs:193 | defines the embed link `<url>/recently_added/<date>` (`ServedIndex`) |
| Paths.SeriesImageUrl | src/main.rs:194 | defines the embed image `<url>/recently_added/<date>/thumbnails/series-<id>.jpg` (`ServedSeriesImage`) |
| Paths.SeriesCoverEndpoint | src/main.rs:281 | defines `<komga url>/api/v1/series/<id>/thumbnail` (`CoverEndpointsDistinct`, `CoverEndpointsInjective`) |
| Paths.BookCoverEndpoint | src/main.rs:301 | defines `<komga url>/api/v1/books/<id>/thumbnail` |
| Paths.SeriesMetricEndpoint | src/main.rs:117 | defines `<komga url>/actuator/metrics/komga.series` (`MetricEndpointsDistinct`) |
| Paths.BooksMetricEndpoint | src/main.rs:121 | defines `<komga url>/actuator/metrics/komga.books` |
| Paths.RouteIndexFile | src/main.rs:47 | defines the file the page route opens (`ServedIndexRoute`) |
| Paths.RouteThumbnailFile | src/main.rs:57 | defines the file the cover route opens (`ServedThumbnailRoute`) |
| Paths.ServedIndexRoute | src/main.rs:45-48 | a one-segment date is served by the page route as `RouteIndexFile` |
| Paths.ServedThumbnailRoute | src/main.rs:51-58 | one-segment date and name are served by the cover route as `RouteThumbnailFile` |
| Newsletter.FileStore.CreateDirAll | src/main.rs:180 | all ancestors of the path become directories, unless one of them is a file, in which case it fails with `BlockedByFile` and changes nothing |
| Newsletter.FileStore.Create | src/main.rs:218 | `File::create` succeeds, leaving an empty file, exactly when the parent exists and the path is not a directory |
| Newsletter.FileStore.Write | src/main.rs:287 | `write_all` on a created file replaces its contents and changes nothing else |
| Newsletter.SeriesCoverJobs | src/main.rs:278-281 | defines the series writer's jobs: per series, in order, its cover path and its cover endpoint |
| Newsletter.BookCoverJobs | src/main.rs:298-301 | defines the issue writer's jobs, likewise |
| Newsletter.WriteCovers | src/main.rs:278-289 | defines a writer job by job: create, download, write, stopping at the first failure (`WriteCoverFiles`, `WriteCoversPasses`, `WriteCoversContents`, `WriteCoversKeepsOthers`) |
| Newsletter.WriteCoverFiles | src/main.rs:278-289 | the series writer loop (and the issue writer at lines 298-309, the same loop) ends with exactly the files and outcome of `WriteCovers` |
| Newsletter.WriteCoversPasses | src/main.rs:278-289 | a writer completes exactly when every file can be created and every download succeeds |
| Newsletter.WriteCoversKeepsOthers | src/main.rs:278-289 | a writer removes no file and changes no file outside its jobs' paths (`KeptOutside`), however it ends |
| Newsletter.WriteCoversContents | src/main.rs:278-289 | a completed writer leaves each cover file holding exactly the bytes downloaded for it (`CoversWritten`), also when two jobs write one file from one endpoint |
| Newsletter.SeriesCoverPathsDistinct | src/main.rs:279 | distinct series ids give distinct cover files, so no cover overwrites another |
| Newsletter.BookCoverPathsDistinct | src/main.rs:299 | the same for issues |
| Newsletter.CoverJobsConsistent | src/main.rs:278-301 | two jobs that write one cover file fetch it from one endpoint |
| Newsletter.NewsletterFilesApart | src/main.rs:217-299 | the series covers, the issue covers and the page are pairwise different files |
| Newsletter.CoversThenPage | src/main.rs:180-186 | both writers completing and then the page being written leave every cover holding its download and the page holding its data |
| Newsletter.CoversCreatable | src/main.rs:279-280 | once line 180 has run, every cover file with a one-segment id can be created unless its path is a directory |
| Newsletter.IndexCreatable | src/main.rs:217-218 | once line 180 has run, the page file can be created unless its path is a directory |
| Newsletter.PublicUrl | src/main.rs:225 | the public URL if configured, else the Komga URL |
| Newsletter.IndexPage | src/main.rs:225-232 | defines the page written: the template path with the public URL, series, issues and date |
| Newsletter.WriteNewsletterIndex | src/main.rs:211-236 | a create failure errors; a missing template panics after the file was created; otherwise the page is written from the public URL, series, issues and date |
| Newsletter.NewsletterEmbed | src/main.rs:195-204 | defines the embed: title, link, the date and count fields, timestamp, the first series' cover as thumbnail and image, description (`EmbedCountsAreExact`, `EmbedLinksServed`) |
| Newsletter.EmbedCountsAreExact | src/main.rs:198-200 | the embed's fields are the date and counts that read back as the numbers of series and issues |
| Newsletter.EmbedLinksServed | src/main.rs:193-203 | the embed's link and image lead, through the file server, to the page and the first series' cover |
| Newsletter.Gather | src/main.rs:163-177 | library failure panics; both windows use one cutoff (eight days before now); series and issues are the prefix cuts described above |
| Newsletter.GatherRecent | src/main.rs:163-177 | the gathering with the issues sorted and reversed in place equals `Gather` |
| Newsletter.WriteNewsletterFiles | src/main.rs:180-186 | the directories gain exactly the ancestors of the thumbnails directory, or it fails with nothing changed when one of them is a file; no file outside the covers and the page changes; on completion every cover holds its download and the page its data; when every write is possible it completes |
| Newsletter.PostNewsletter | src/main.rs:189-207 | a missing channel panics; an empty series list panics at the unwrap; otherwise exactly one message with the embed, stamped with the third clock reading, is sent |
| Newsletter.WriteRecentlyAdded | src/main.rs:160-209 | a gather failure changes nothing; after a gather no file outside the newsletter's changes and the directories gain exactly the thumbnails ancestors; no message without completion; completion means a non-empty series list, every cover holding its download, the page written and one message sent; an empty series list panics after the files are written; when every write is possible, it completes exactly when the series list is non-empty and the channel is found, and panics when the channel is not found |
| Decimal.ValueOfNatToString | src/main.rs:199-200 | the printed count reads back as the count |
| Decimal.NatToStringInjective | src/main.rs:199-200 | different counts print differently |
| Decimal.NoLeadingZero | src/main.rs:199-200 | the numeral has no leading zero except for zero |
| Decimal.NatToString | src/main.rs:199-200 | `usize::to_string`: at least one character, all decimal digits |
| Decimal.DigitChar | src/main.rs:199-200 | a digit's character is the digit whose code lies that far above '0' |
| Settings.BasicAuthHeader | src/settings.rs:49 | the value starts with `Basic ` and the rest is Base64 alphabet or padding |
| Settings.Credentials | src/settings.rs:49 | defines the user-pass `username:password`, with no escaping (`ColonInUsernameIsAmbiguous`) |
| Settings.BasicAuthHeaderEncodesCredentials | src/settings.rs:49 | the encoded part has length 4·⌈n/3⌉ and decodes to the username's bytes, a colon and the password's bytes |
| Settings.BasicAuthHeaderDeterminesCredentials | src/settings.rs:49 | equal headers carry equal user-pass bytes |
| Settings.ColonInUsernameIsAmbiguous | src/settings.rs:49 | username "a:b" with password "c" and username "a" with password "b:c" give the same header |
| Settings.HeaderValueFromStr | src/settings.rs:59-60 | `from_str` accepts exactly the strings whose bytes are all valid header bytes |
| Settings.BasicAuthHeaderIsValid | src/settings.rs:57-60 | the Basic header is visible ASCII, so `from_str` accepts it and the `expect` cannot fire |
| Settings.JsonMediaTypeIsVisibleAscii | src/settings.rs:55 | `from_static("application/json")` cannot panic |
| Settings.HeaderMap.Insert | src/settings.rs:53-61 | the map gains or overwrites that header and nothing else |
| Settings.DefaultHeaders | src/settings.rs:51-63 | the headers are exactly Accept: application/json and the Basic Authorization value |
| Settings.ClientFrom | src/settings.rs:47-66 | the client carries exactly those default headers |
| Settings.ConfigurationFrom | src/settings.rs:69-77 | base path is the URL, Basic credentials are `(username, Some(password))`, and the client has the same headers |
| Settings.Build | src/settings.rs:82-86 | defines `Config::builder().build()`: sources merged in order, a missing required file an error (`BuildFailsIffRequiredMissing`, `BuildPrecedence`, `BuildUndefined`) |
| Settings.SettingsSources | src/settings.rs:82-85 | defines the three sources in order: config/default (required), config/local (optional), the environment |
| Settings.BuildFailsIffRequiredMissing | src/settings.rs:82-86 | building fails exactly when a required source is missing |
| Settings.BuildPrecedence | src/settings.rs:82-86 | a key takes the value of the last source that defines it |
| Settings.BuildUndefined | src/settings.rs:82-86 | a key no source defines is absent |
| Settings.SettingsLayering | src/settings.rs:81-88 | only a missing config/default fails; a missing config/local is no error; environment over local over default |
| Base64.Encode | src/settings.rs:49 | the padded standard encoding: 4·⌈n/3⌉ characters for n bytes |
| Base64.EncodeAlphabet | src/settings.rs:49 | every encoded character is from the alphabet or '=', and '=' only in the last two places |
| Base64.DecodeEncode | src/settings.rs:49 | decoding the padded standard encoding gives back the bytes |
| Base64.EncodeInjective | src/settings.rs:49 | different byte strings encode differently |
| Utf8.EncodeAppend | src/settings.rs:49 | the UTF-8 bytes of a concatenation are the concatenated bytes |
| Utf8.Encode | src/settings.rs:49 | the UTF-8 bytes of a string: between one and four bytes per character |
| Utf8.EncodeChar | src/settings.rs:49 | one to four bytes; one exactly for ASCII, then equal to the code |
| Utf8.EncodeAscii | src/settings.rs:49 | an ASCII string encodes to one byte per character, equal to its code |

## Left out

- Network I/O is not modelled:
  - the Komga API calls, the metric requests and the cover downloads are inputs of the jobs;
  - the request parameters sent to Komga (library ids, `released_after`, sort, paging) are not modelled. Komga's server-side filtering is not part of this model, so the library ids are resolved but not passed anywhere.
- Serenity's Discord calls work on the `Chat.Discord` state and never fail. A failing delete, create or send (an early return through `?`) is not modelled.
- Only the first guild's channels are modelled. Every operation of the source works on that guild.
- `chrono` is not modelled: `now()`, the `%Y-%m-%d` formatting of the date and RFC 3339 parsing. The newsletter job reads the clock three times: `Local::now` for the date text (line 167), `Local::now` for the cutoff (line 170) and `Utc::now` for the embed's timestamp (line 201). `Newsletter.WriteRecentlyAdded` takes the three readings as the unrelated parameters `date`, `now` and `postedAt`; it does not check that `date` is the text of any instant.
  - Timestamps are nanoseconds, as a `chrono::DateTime` holds them; digits of an RFC 3339 fraction beyond nanoseconds, which chrono also drops, are not represented.
  - If parsing fails, that `expect` would panic; this is also not modelled.
  - `checked_sub_signed` cannot fail on unbounded integers, so its `expect` is not modelled.
- Recent.SortByCreated: the source sorts by the `created` text and the model sorts by the instant. The two agree only for RFC 3339 strings in one offset.
- The `f32` metric value and its `{}` formatting are not modelled. A measurement carries the printed text.
- Handlebars is not modelled:
  - Template rendering is abstract: the page written is the template path with its data.
  - A template that fails to parse, and a render error, are not modelled. Registration panics exactly when the template file is missing.
- serde deserialisation is not modelled:
  - the `config` crate's file formats and environment parsing;
  - the `try_deserialize` of the merged map into `Settings`. The jobs receive `Settings.Config`.
- Settings.ClientFrom: the `reqwest` client builder's `build().expect(..)` (src/settings.rs, lines 64-65) panics if reqwest cannot build the client. That panic is not modelled; `Settings.ClientFrom` always returns a client.
- Newsletter.FileStore.CreateDirAll: the two `io::ErrorKind`s `create_dir_all` can return for a file in the way (ENOTDIR for an inner ancestor, `AlreadyExists` for the path itself) are merged into the one error `BlockedByFile`.
- Rocket is not modelled: percent-decoding of request paths, its other route checks and `NamedFile::open` failures. `Paths.ServedFile` models only the segment matching.
- File writes and `flush` cannot fail. A failed download ends the writer with `Failed`; `File::create` and `create_dir_all` failures are modelled too.
- The scheduler, `main`, async/tokio and the Rocket launch are runtime plumbing and are not modelled.
- The `description`, `base_unit` and `available_tags` fields of a metric are not modelled, since nothing reads them.
- Settings.BasicAuthHeader: the user-pass is formatted as `username:password` with no escaping, so a colon in the username is indistinguishable from one in the password (`Settings.ColonInUsernameIsAmbiguous`). The model states it and does not reject such a username.

Two behaviours of the code are worth noting:

- The issue window is a `take_while` prefix of the sorted list, not a filter (`Recent.RecentBooksIsNotAFilter`).
- The routes insert the request segments into the file path unchanged (`Paths.RoutesDoNotSanitise`).
