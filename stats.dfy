/**
 * The statistics job (`update_komga_stats` in main.rs): fetch the series and
 * issue counts from Komga's actuator metrics, find or create the stats category,
 * and replace the two count channels inside it.
 *
 * The two metric requests are inputs; their transport, JSON decoding and the
 * `f32` formatting of the value are not part of this model (a measurement's
 * value is already the text the bot prints).
 */
module Stats {
  import opened Wrappers
  import opened Komga
  import opened Chat

  datatype StatsError = MetricError(api: ApiError) | DiscordError(chat: ChatError)

  /** `measurements.first()`, reduced to the printed value. */
  function FirstValue(m: Metric): (v: Option<string>)
    ensures v.None? <==> m.measurements == []
    ensures v.Some? ==> v.value == m.measurements[0].value
  {
    if m.measurements == [] then None else Some(m.measurements[0].value)
  }

  /**
   * The state the Discord half of the job leaves behind, from the channel list `before`,
   * next id `firstId` and request log `log` before it: the category is found or created
   * (fixing `CategoryId`), the pass deletes the stale channels of the resulting list, and
   * the stat channels are created inside the category with the ids that follow.
   */
  predicate StatsReplaced(before: seq<Channel>, firstId: ChannelId, log: seq<Call>, guild: GuildId,
                          categoryName: string, series: Option<string>, books: Option<string>,
                          after: seq<Channel>, calls: seq<Call>)
  {
    && after == Kept(WithCategory(before, firstId, categoryName), series, books)
                + NewStatChannels(firstId + |CategoryCreates(before, guild, categoryName)|,
                                  CategoryId(before, firstId, categoryName), series, books)
    && calls == log + CategoryCreates(before, guild, categoryName)
                + DeleteCalls(WithCategory(before, firstId, categoryName), series, books)
                + CreateCalls(guild, CategoryId(before, firstId, categoryName), series, books)
  }

  /**
   * `update_komga_stats`. Either metric request failing ends the job
   * before any Discord request; so does an empty guild list. Otherwise the category
   * is found or created first, then the stat channels are replaced inside it.
   */
  method UpdateStats(d: Discord, categoryName: string,
                     seriesMetric: Result<Metric, ApiError>, booksMetric: Result<Metric, ApiError>)
    returns (r: Outcome<StatsError>)
    requires d.Valid()
    modifies d
    ensures d.Valid() && d.guilds == old(d.guilds)
    ensures seriesMetric.Failure? ==> r == Fail(MetricError(seriesMetric.error)) && unchanged(d)
    ensures seriesMetric.Success? && booksMetric.Failure? ==> r == Fail(MetricError(booksMetric.error)) && unchanged(d)
    ensures seriesMetric.Success? && booksMetric.Success? && old(d.guilds) == [] ==>
              r == Fail(DiscordError(NoGuild)) && unchanged(d)
    ensures seriesMetric.Success? && booksMetric.Success? && old(d.guilds) != [] ==>
              r == Pass
              && StatsReplaced(old(d.channels), old(d.nextId), old(d.calls), d.guilds[0], categoryName,
                               FirstValue(seriesMetric.value), FirstValue(booksMetric.value), d.channels, d.calls)
  {
    if seriesMetric.Failure? {
      return Fail(MetricError(seriesMetric.error));
    }
    if booksMetric.Failure? {
      return Fail(MetricError(booksMetric.error));
    }
    var refreshed := RefreshStatChannels(d, categoryName, FirstValue(seriesMetric.value), FirstValue(booksMetric.value));
    r := if refreshed.Fail? then Fail(DiscordError(refreshed.error)) else Pass;
  }

  /** The Discord half of `update_komga_stats`: the category lookup, then the replacement. */
  method RefreshStatChannels(d: Discord, categoryName: string, series: Option<string>, books: Option<string>)
    returns (r: Outcome<ChatError>)
    requires d.Valid()
    modifies d
    ensures d.Valid() && d.guilds == old(d.guilds)
    ensures old(d.guilds) == [] ==> r == Fail(NoGuild) && unchanged(d)
    ensures old(d.guilds) != [] ==>
              r == Pass
              && StatsReplaced(old(d.channels), old(d.nextId), old(d.calls), d.guilds[0], categoryName,
                               series, books, d.channels, d.calls)
  {
    ghost var before, firstId, log := d.channels, d.nextId, d.calls;
    var found := d.FindOrCreateChannel(categoryName);
    if found.Failure? {
      return Fail(found.error);
    }
    ghost var lookedUp, afterLookup, nextAfterLookup := d.channels, d.calls, d.nextId;
    r := d.ReplaceStatChannels(found.value, series, books);
    LookupThenReplace(before, firstId, log, d.guilds[0], categoryName, series, books,
                      found.value, lookedUp, nextAfterLookup, afterLookup, d.channels, d.calls);
  }

  /** A find-or-create of the category followed by a replacement inside it leaves `StatsReplaced`. */
  lemma LookupThenReplace(before: seq<Channel>, firstId: ChannelId, log: seq<Call>, guild: GuildId,
                          categoryName: string, series: Option<string>, books: Option<string>,
                          category: ChannelId, lookedUp: seq<Channel>, nextAfterLookup: ChannelId,
                          afterLookup: seq<Call>, after: seq<Channel>, calls: seq<Call>)
    requires category == CategoryId(before, firstId, categoryName)
    requires lookedUp == WithCategory(before, firstId, categoryName)
    requires afterLookup == log + CategoryCreates(before, guild, categoryName)
    requires nextAfterLookup == firstId + |CategoryCreates(before, guild, categoryName)|
    requires after == Kept(lookedUp, series, books) + NewStatChannels(nextAfterLookup, category, series, books)
    requires calls == afterLookup + DeleteCalls(lookedUp, series, books) + CreateCalls(guild, category, series, books)
    ensures StatsReplaced(before, firstId, log, guild, categoryName, series, books, after, calls)
  {
  }
}
