/**
 * The Discord side of main.rs: the guild list and channel lists the bot sees
 * through serenity's HTTP client, the lookups `get_guild`, `get_discord_channel_id`
 * and `find_or_create_channel`, and `replace_stat_channels`.
 *
 * The remote state is a `Discord` object: the guilds in the order the API lists
 * them, the first guild's channels in listing order, the next id the server hands out,
 * and a log of every mutating request the bot sends (deletes, creates, messages),
 * so that statements about request order are statements about the log.
 */
module Chat {
  import opened Wrappers
  import Komga

  /** `SERIES_STAT_PREFIX`: the name prefix of the series-count channel ("📚Series: "). */
  const SERIES_STAT_PREFIX: string := "\U{1F4DA}Series: "
  /** `BOOKS_STAT_PREFIX`: the name prefix of the issue-count channel ("📖Issues: "). */
  const BOOKS_STAT_PREFIX: string := "\U{1F4D6}Issues: "

  type GuildId = nat
  type ChannelId = nat

  datatype ChannelKind = Text | Voice | Category

  datatype Channel = Channel(id: ChannelId, name: string, kind: ChannelKind, parent: Option<ChannelId>)

  datatype EmbedField = EmbedField(name: string, value: string, inline: bool)

  datatype Embed = Embed(
    title: string,
    url: string,
    fields: seq<EmbedField>,
    timestamp: Komga.Timestamp,
    thumbnail: string,
    image: string,
    description: string)

  /** A request that changes something on the server. */
  datatype Call =
    | DeleteCall(channel: ChannelId)
    | CreateCall(guild: GuildId, name: string, kind: ChannelKind, parent: Option<ChannelId>)
    | SendCall(channel: ChannelId, embed: Embed)

  datatype ChatError = NoGuild | NoSuchChannel(name: string)

  /** `str::starts_with`: `prefix` is an initial segment of `s`. */
  predicate StartsWith(s: string, prefix: string)
    decreases |prefix|
  {
    prefix == [] || (s != [] && s[0] == prefix[0] && StartsWith(s[1..], prefix[1..]))
  }

  lemma {:induction false} StartsWithConcat(prefix: string, rest: string)
    ensures StartsWith(prefix + rest, prefix)
    decreases |prefix|
  {
    if prefix != [] {
      assert (prefix + rest)[1..] == prefix[1..] + rest;
      StartsWithConcat(prefix[1..], rest);
    }
  }

  /** `starts_with` agrees with Dafny's prefix relation. */
  lemma {:induction false} StartsWithIsPrefix(s: string, prefix: string)
    ensures StartsWith(s, prefix) <==> prefix <= s
    decreases |prefix|
  {
    if prefix != [] && s != [] {
      StartsWithIsPrefix(s[1..], prefix[1..]);
      assert prefix <= s <==> s[0] == prefix[0] && prefix[1..] <= s[1..];
    }
  }

  // ---------------------------------------------------------------------
  // Channel lists
  // ---------------------------------------------------------------------

  /** No two channels of the list share an id. */
  predicate DistinctIds(cs: seq<Channel>)
    decreases |cs|
  {
    cs == [] ||
    (DistinctIds(cs[..|cs| - 1]) && forall c :: c in cs[..|cs| - 1] ==> c.id != cs[|cs| - 1].id)
  }

  lemma {:induction false} DistinctIdsIndex(cs: seq<Channel>)
    requires DistinctIds(cs)
    ensures forall j, k :: 0 <= j < k < |cs| ==> cs[j].id != cs[k].id
    decreases |cs|
  {
    if cs != [] {
      var init := cs[..|cs| - 1];
      DistinctIdsIndex(init);
      forall j, k | 0 <= j < k < |cs| ensures cs[j].id != cs[k].id {
        if k < |cs| - 1 {
          assert cs[j] == init[j] && cs[k] == init[k];
        } else {
          assert cs[j] in init;
        }
      }
    }
  }

  /** The first position of a channel called `name`. */
  function FindByName(cs: seq<Channel>, name: string): (r: Option<nat>)
    ensures r.Some? ==> r.value < |cs| && cs[r.value].name == name
    ensures r.Some? ==> forall j :: 0 <= j < r.value ==> cs[j].name != name
    ensures r.None? <==> forall j :: 0 <= j < |cs| ==> cs[j].name != name
    decreases |cs|
  {
    if cs == [] then None
    else if cs[0].name == name then Some(0)
    else
      match FindByName(cs[1..], name)
      case None =>
        assert forall j :: 1 <= j < |cs| ==> cs[j] == cs[1..][j - 1];
        None
      case Some(i) =>
        assert forall j :: 1 <= j <= i + 1 ==> cs[j] == cs[1..][j - 1];
        Some(i + 1)
  }

  /**
   * `find_or_create_channel` on a channel list: the id of the first channel called
   * `name`, or else `nextId`, the id the server gives the category it creates.
   */
  function CategoryId(cs: seq<Channel>, nextId: ChannelId, name: string): ChannelId {
    match FindByName(cs, name)
    case Some(i) => cs[i].id
    case None => nextId
  }

  /** The channel list after `find_or_create_channel`: unchanged, or with the new category appended. */
  function WithCategory(cs: seq<Channel>, nextId: ChannelId, name: string): seq<Channel> {
    if FindByName(cs, name).Some? then cs else cs + [Channel(nextId, name, Category, None)]
  }

  /** The requests `find_or_create_channel` sends: one category creation, or none when the name is taken. */
  function CategoryCreates(cs: seq<Channel>, guild: GuildId, name: string): seq<Call> {
    if FindByName(cs, name).Some? then [] else [CreateCall(guild, name, Category, None)]
  }

  /**
   * Finding or creating a category a second time finds the one the first call found or
   * made: the list does not grow again and the same id comes back, so there is one category.
   */
  lemma FindOrCreateIdempotent(cs: seq<Channel>, nextId: ChannelId, laterId: ChannelId, name: string)
    ensures FindByName(WithCategory(cs, nextId, name), name).Some?
    ensures WithCategory(WithCategory(cs, nextId, name), laterId, name) == WithCategory(cs, nextId, name)
    ensures CategoryId(WithCategory(cs, nextId, name), laterId, name) == CategoryId(cs, nextId, name)
    ensures WithCategory(cs, nextId, name)[FindByName(WithCategory(cs, nextId, name), name).value].id
            == CategoryId(cs, nextId, name)
  {
    if FindByName(cs, name).None? {
      var grown := cs + [Channel(nextId, name, Category, None)];
      assert grown[|cs|].name == name;
      assert forall j :: 0 <= j < |cs| ==> grown[j] == cs[j];
    }
  }

  /** The list without the channel(s) carrying `id` (what deleting channel `id` leaves). */
  function Without(cs: seq<Channel>, id: ChannelId): (r: seq<Channel>)
    ensures |r| <= |cs|
    decreases |cs|
  {
    if cs == [] then []
    else Without(cs[..|cs| - 1], id) + (if cs[|cs| - 1].id == id then [] else [cs[|cs| - 1]])
  }

  /** Deleting only removes, and removes every channel carrying the id. */
  lemma {:induction false} WithoutSubset(cs: seq<Channel>, id: ChannelId)
    ensures forall c :: c in Without(cs, id) ==> c in cs && c.id != id
    decreases |cs|
  {
    if cs != [] {
      var init, last := cs[..|cs| - 1], cs[|cs| - 1];
      WithoutSubset(init, id);
      assert cs == init + [last];
    }
  }

  /** Deleting an id no channel carries changes nothing. */
  lemma {:induction false} WithoutAbsent(cs: seq<Channel>, id: ChannelId)
    requires forall c :: c in cs ==> c.id != id
    ensures Without(cs, id) == cs
    decreases |cs|
  {
    if cs != [] {
      var init, last := cs[..|cs| - 1], cs[|cs| - 1];
      assert cs == init + [last];
      assert forall c :: c in init ==> c in cs;
      WithoutAbsent(init, id);
    }
  }

  lemma {:induction false} WithoutAppend(a: seq<Channel>, b: seq<Channel>, id: ChannelId)
    ensures Without(a + b, id) == Without(a, id) + Without(b, id)
    decreases |b|
  {
    if b == [] {
      assert a + b == a;
    } else {
      var init, last := b[..|b| - 1], b[|b| - 1];
      WithoutAppend(a, init, id);
      var ab := a + b;
      assert ab[..|ab| - 1] == a + init;
      assert ab[|ab| - 1] == last;
      assert Without(ab, id) == Without(a + init, id) + (if last.id == id then [] else [last]);
    }
  }

  lemma {:induction false} WithoutKeepsDistinct(cs: seq<Channel>, id: ChannelId)
    requires DistinctIds(cs)
    ensures DistinctIds(Without(cs, id))
    decreases |cs|
  {
    if cs != [] {
      var init, last := cs[..|cs| - 1], cs[|cs| - 1];
      WithoutKeepsDistinct(init, id);
      WithoutSubset(init, id);
      var w := Without(init, id);
      assert forall c :: c in init ==> c.id != last.id;
      if last.id != id {
        assert Without(cs, id) == w + [last];
        assert (w + [last])[..|w + [last]| - 1] == w;
        forall c | c in w ensures c.id != last.id {
          assert c in init;
        }
      } else {
        assert Without(cs, id) == w;
      }
    }
  }

  /** A new channel whose id is above every existing one keeps the ids distinct. */
  lemma AppendFreshKeepsDistinct(cs: seq<Channel>, c: Channel)
    requires DistinctIds(cs) && forall d :: d in cs ==> d.id < c.id
    ensures DistinctIds(cs + [c])
  {
    assert (cs + [c])[..|cs|] == cs;
  }

  // ---------------------------------------------------------------------
  // The stat-channel replacement, as a function of the channel snapshot
  // ---------------------------------------------------------------------

  /** The series test of the pass: a series metric is present and the name carries its prefix. */
  predicate SeriesHit(c: Channel, series: Option<string>) {
    series.Some? && StartsWith(c.name, SERIES_STAT_PREFIX)
  }

  /** The issues test of the pass. */
  predicate BooksHit(c: Channel, books: Option<string>) {
    books.Some? && StartsWith(c.name, BOOKS_STAT_PREFIX)
  }

  /** Whether the pass over the snapshot deletes channel `c`. */
  predicate IsStale(c: Channel, series: Option<string>, books: Option<string>) {
    SeriesHit(c, series) || BooksHit(c, books)
  }

  /** The snapshot channels that survive the deleting pass, in order. */
  function Kept(cs: seq<Channel>, series: Option<string>, books: Option<string>): (r: seq<Channel>)
    ensures |r| <= |cs|
    decreases |cs|
  {
    if cs == [] then []
    else
      var last := cs[|cs| - 1];
      Kept(cs[..|cs| - 1], series, books) + (if IsStale(last, series, books) then [] else [last])
  }

  /** Survivors are snapshot channels the pass does not match. */
  lemma {:induction false} KeptSubset(cs: seq<Channel>, series: Option<string>, books: Option<string>)
    ensures forall c :: c in Kept(cs, series, books) ==> c in cs && !IsStale(c, series, books)
    decreases |cs|
  {
    if cs != [] {
      var init, last := cs[..|cs| - 1], cs[|cs| - 1];
      KeptSubset(init, series, books);
      assert cs == init + [last];
    }
  }

  /** The delete requests the pass sends for one channel: one per prefix test that succeeds. */
  function ChannelDeletes(c: Channel, series: Option<string>, books: Option<string>): seq<Call> {
    (if SeriesHit(c, series) then [DeleteCall(c.id)] else []) + (if BooksHit(c, books) then [DeleteCall(c.id)] else [])
  }

  /** The delete requests of the whole pass, in snapshot order. */
  function DeleteCalls(cs: seq<Channel>, series: Option<string>, books: Option<string>): seq<Call>
    decreases |cs|
  {
    if cs == [] then []
    else DeleteCalls(cs[..|cs| - 1], series, books) + ChannelDeletes(cs[|cs| - 1], series, books)
  }

  /** One delete request per stale channel, in snapshot order. */
  function StaleDeletes(cs: seq<Channel>, series: Option<string>, books: Option<string>): (r: seq<Call>)
    ensures |r| <= |cs|
    decreases |cs|
  {
    if cs == [] then []
    else
      var last := cs[|cs| - 1];
      StaleDeletes(cs[..|cs| - 1], series, books) + (if IsStale(last, series, books) then [DeleteCall(last.id)] else [])
  }

  /** The voice channel `replace_stat_channels` creates for a present metric. */
  function StatChannel(id: ChannelId, prefix: string, value: string, category: ChannelId): Channel {
    Channel(id, prefix + value, Voice, Some(category))
  }

  /** The channels the creating phase appends: series first, then books, with consecutive ids. */
  function NewStatChannels(firstId: ChannelId, category: ChannelId, series: Option<string>, books: Option<string>)
    : (r: seq<Channel>)
    ensures |r| == (if series.Some? then 1 else 0) + (if books.Some? then 1 else 0)
  {
    var bookId := if series.Some? then firstId + 1 else firstId;
    (if series.Some? then [StatChannel(firstId, SERIES_STAT_PREFIX, series.value, category)] else [])
      + (if books.Some? then [StatChannel(bookId, BOOKS_STAT_PREFIX, books.value, category)] else [])
  }

  /** The stat channel one present metric gets, or none. */
  function StatChannelIfPresent(id: ChannelId, prefix: string, value: Option<string>, category: ChannelId): seq<Channel> {
    if value.Some? then [StatChannel(id, prefix, value.value, category)] else []
  }

  /** The create request one present metric causes, or none. */
  function StatCallIfPresent(guild: GuildId, prefix: string, value: Option<string>, category: ChannelId): seq<Call> {
    if value.Some? then [CreateCall(guild, prefix + value.value, Voice, Some(category))] else []
  }

  function CreateCalls(guild: GuildId, category: ChannelId, series: Option<string>, books: Option<string>): seq<Call> {
    (if series.Some? then [CreateCall(guild, SERIES_STAT_PREFIX + series.value, Voice, Some(category))] else [])
      + (if books.Some? then [CreateCall(guild, BOOKS_STAT_PREFIX + books.value, Voice, Some(category))] else [])
  }

  /** The channels of a list whose name starts with `prefix`, in order. */
  function Prefixed(cs: seq<Channel>, prefix: string): (r: seq<Channel>)
    ensures |r| <= |cs|
    decreases |cs|
  {
    if cs == [] then []
    else Prefixed(cs[..|cs| - 1], prefix) + (if StartsWith(cs[|cs| - 1].name, prefix) then [cs[|cs| - 1]] else [])
  }

  lemma {:induction false} PrefixedAppend(a: seq<Channel>, b: seq<Channel>, prefix: string)
    ensures Prefixed(a + b, prefix) == Prefixed(a, prefix) + Prefixed(b, prefix)
    decreases |b|
  {
    if b == [] {
      assert a + b == a;
    } else {
      PrefixedAppend(a, b[..|b| - 1], prefix);
      ConcatInit(a, b);
    }
  }

  // ---------------------------------------------------------------------
  // Properties of the replacement
  // ---------------------------------------------------------------------

  /** The two prefixes differ and neither starts the other, so no name carries both. */
  lemma PrefixesDisjoint(name: string)
    ensures SERIES_STAT_PREFIX != BOOKS_STAT_PREFIX
    ensures !StartsWith(BOOKS_STAT_PREFIX, SERIES_STAT_PREFIX) && !StartsWith(SERIES_STAT_PREFIX, BOOKS_STAT_PREFIX)
    ensures !(StartsWith(name, SERIES_STAT_PREFIX) && StartsWith(name, BOOKS_STAT_PREFIX))
  {
    assert SERIES_STAT_PREFIX[0] != BOOKS_STAT_PREFIX[0];
  }

  /** A name made from a prefix starts with it and not with the other prefix. */
  lemma StatNamePrefixes(value: string)
    ensures StartsWith(SERIES_STAT_PREFIX + value, SERIES_STAT_PREFIX) && !StartsWith(SERIES_STAT_PREFIX + value, BOOKS_STAT_PREFIX)
    ensures StartsWith(BOOKS_STAT_PREFIX + value, BOOKS_STAT_PREFIX) && !StartsWith(BOOKS_STAT_PREFIX + value, SERIES_STAT_PREFIX)
  {
    StartsWithConcat(SERIES_STAT_PREFIX, value);
    StartsWithConcat(BOOKS_STAT_PREFIX, value);
    PrefixesDisjoint(SERIES_STAT_PREFIX + value);
    PrefixesDisjoint(BOOKS_STAT_PREFIX + value);
  }

  /** Because no name carries both prefixes, each channel draws at most one delete request. */
  lemma {:induction false} DeleteCallsOncePerChannel(cs: seq<Channel>, series: Option<string>, books: Option<string>)
    ensures DeleteCalls(cs, series, books) == StaleDeletes(cs, series, books)
    ensures |DeleteCalls(cs, series, books)| <= |cs|
    decreases |cs|
  {
    if cs != [] {
      DeleteCallsOncePerChannel(cs[..|cs| - 1], series, books);
      ChannelDeletesOnce(cs[|cs| - 1], series, books);
    }
  }

  /** A single channel draws one delete request if it is stale and none otherwise. */
  lemma ChannelDeletesOnce(c: Channel, series: Option<string>, books: Option<string>)
    ensures ChannelDeletes(c, series, books) == (if IsStale(c, series, books) then [DeleteCall(c.id)] else [])
  {
    PrefixesDisjoint(c.name);
  }

  /** Survivors keep (in order) every snapshot channel the pass does not match. */
  lemma {:induction false} KeptPrefixed(cs: seq<Channel>, series: Option<string>, books: Option<string>, prefix: string)
    requires prefix == SERIES_STAT_PREFIX || prefix == BOOKS_STAT_PREFIX
    ensures prefix == SERIES_STAT_PREFIX && series.Some? ==> Prefixed(Kept(cs, series, books), prefix) == []
    ensures prefix == SERIES_STAT_PREFIX && series.None? ==> Prefixed(Kept(cs, series, books), prefix) == Prefixed(cs, prefix)
    ensures prefix == BOOKS_STAT_PREFIX && books.Some? ==> Prefixed(Kept(cs, series, books), prefix) == []
    ensures prefix == BOOKS_STAT_PREFIX && books.None? ==> Prefixed(Kept(cs, series, books), prefix) == Prefixed(cs, prefix)
    decreases |cs|
  {
    if cs != [] {
      var init, last := cs[..|cs| - 1], cs[|cs| - 1];
      var tail := if IsStale(last, series, books) then [] else [last];
      KeptPrefixed(init, series, books, prefix);
      KeptTailPrefixed(last, series, books, prefix);
      assert Kept(cs, series, books) == Kept(init, series, books) + tail;
      assert Prefixed(cs, prefix) == Prefixed(init, prefix) + (if StartsWith(last.name, prefix) then [last] else []);
      PrefixedAppend(Kept(init, series, books), tail, prefix);
    }
  }

  /** What the last snapshot channel contributes to the survivors with a given prefix. */
  lemma KeptTailPrefixed(last: Channel, series: Option<string>, books: Option<string>, prefix: string)
    requires prefix == SERIES_STAT_PREFIX || prefix == BOOKS_STAT_PREFIX
    ensures var tail := if IsStale(last, series, books) then [] else [last];
            && (prefix == SERIES_STAT_PREFIX && series.Some? ==> Prefixed(tail, prefix) == [])
            && (prefix == BOOKS_STAT_PREFIX && books.Some? ==> Prefixed(tail, prefix) == [])
            && (prefix == SERIES_STAT_PREFIX && series.None? ==>
                  Prefixed(tail, prefix) == (if StartsWith(last.name, prefix) then [last] else []))
            && (prefix == BOOKS_STAT_PREFIX && books.None? ==>
                  Prefixed(tail, prefix) == (if StartsWith(last.name, prefix) then [last] else []))
  {
    PrefixesDisjoint(last.name);
    assert Prefixed([last], prefix) == (if StartsWith(last.name, prefix) then [last] else []) by {
      assert [last][..0] == [];
    }
  }

  /**
   * The channel list after a replacement, restricted to the series prefix: for a
   * present metric exactly the one new voice channel `prefix + value` in the category;
   * for an absent metric what the snapshot had.
   */
  lemma SeriesAfterReplacement(cs: seq<Channel>, firstId: ChannelId, category: ChannelId,
                               series: Option<string>, books: Option<string>)
    ensures series.Some? ==>
              Prefixed(Kept(cs, series, books) + NewStatChannels(firstId, category, series, books), SERIES_STAT_PREFIX)
              == [StatChannel(firstId, SERIES_STAT_PREFIX, series.value, category)]
    ensures series.None? ==>
              Prefixed(Kept(cs, series, books) + NewStatChannels(firstId, category, series, books), SERIES_STAT_PREFIX)
              == Prefixed(cs, SERIES_STAT_PREFIX)
  {
    var kept := Kept(cs, series, books);
    var created := NewStatChannels(firstId, category, series, books);
    KeptPrefixed(cs, series, books, SERIES_STAT_PREFIX);
    PrefixedAppend(kept, created, SERIES_STAT_PREFIX);
    NewStatChannelsSeriesPrefixed(firstId, category, series, books);
  }

  /** The same for the issues prefix; the issues channel takes the id after the series one. */
  lemma BooksAfterReplacement(cs: seq<Channel>, firstId: ChannelId, category: ChannelId,
                              series: Option<string>, books: Option<string>)
    ensures books.Some? ==>
              Prefixed(Kept(cs, series, books) + NewStatChannels(firstId, category, series, books), BOOKS_STAT_PREFIX)
              == [StatChannel(if series.Some? then firstId + 1 else firstId, BOOKS_STAT_PREFIX, books.value, category)]
    ensures books.None? ==>
              Prefixed(Kept(cs, series, books) + NewStatChannels(firstId, category, series, books), BOOKS_STAT_PREFIX)
              == Prefixed(cs, BOOKS_STAT_PREFIX)
  {
    var kept := Kept(cs, series, books);
    var created := NewStatChannels(firstId, category, series, books);
    KeptPrefixed(cs, series, books, BOOKS_STAT_PREFIX);
    PrefixedAppend(kept, created, BOOKS_STAT_PREFIX);
    NewStatChannelsBooksPrefixed(firstId, category, series, books);
  }

  /** A one-channel list keeps its channel exactly when the name carries the prefix. */
  lemma PrefixedSingle(c: Channel, prefix: string)
    ensures Prefixed([c], prefix) == (if StartsWith(c.name, prefix) then [c] else [])
  {
    assert [c][..0] == [];
  }

  /** Prefixed over the created channels: the series channel alone carries the series prefix. */
  lemma NewStatChannelsSeriesPrefixed(firstId: ChannelId, category: ChannelId, series: Option<string>, books: Option<string>)
    ensures Prefixed(NewStatChannels(firstId, category, series, books), SERIES_STAT_PREFIX)
            == (if series.Some? then [StatChannel(firstId, SERIES_STAT_PREFIX, series.value, category)] else [])
  {
    var bookId := if series.Some? then firstId + 1 else firstId;
    var sc := if series.Some? then [StatChannel(firstId, SERIES_STAT_PREFIX, series.value, category)] else [];
    var bc := if books.Some? then [StatChannel(bookId, BOOKS_STAT_PREFIX, books.value, category)] else [];
    PrefixedAppend(sc, bc, SERIES_STAT_PREFIX);
    if series.Some? {
      StatNamePrefixes(series.value);
      PrefixedSingle(sc[0], SERIES_STAT_PREFIX);
    }
    if books.Some? {
      StatNamePrefixes(books.value);
      PrefixedSingle(bc[0], SERIES_STAT_PREFIX);
    }
  }

  /** Prefixed over the created channels: the issues channel alone carries the issues prefix. */
  lemma NewStatChannelsBooksPrefixed(firstId: ChannelId, category: ChannelId, series: Option<string>, books: Option<string>)
    ensures Prefixed(NewStatChannels(firstId, category, series, books), BOOKS_STAT_PREFIX)
            == (if books.Some?
                then [StatChannel(if series.Some? then firstId + 1 else firstId, BOOKS_STAT_PREFIX, books.value, category)]
                else [])
  {
    var bookId := if series.Some? then firstId + 1 else firstId;
    var sc := if series.Some? then [StatChannel(firstId, SERIES_STAT_PREFIX, series.value, category)] else [];
    var bc := if books.Some? then [StatChannel(bookId, BOOKS_STAT_PREFIX, books.value, category)] else [];
    PrefixedAppend(sc, bc, BOOKS_STAT_PREFIX);
    if series.Some? {
      StatNamePrefixes(series.value);
      PrefixedSingle(sc[0], BOOKS_STAT_PREFIX);
    }
    if books.Some? {
      StatNamePrefixes(books.value);
      PrefixedSingle(bc[0], BOOKS_STAT_PREFIX);
    }
  }

  /** The pass sends nothing but deletes. */
  lemma {:induction false} DeleteCallsAreDeletes(cs: seq<Channel>, series: Option<string>, books: Option<string>)
    ensures forall k :: 0 <= k < |DeleteCalls(cs, series, books)| ==> DeleteCalls(cs, series, books)[k].DeleteCall?
    decreases |cs|
  {
    if cs != [] {
      DeleteCallsAreDeletes(cs[..|cs| - 1], series, books);
    }
  }

  /**
   * In the requests of one replacement every delete comes before every create:
   * all deletions precede all creations.
   */
  lemma DeletionsPrecedeCreations(cs: seq<Channel>, guild: GuildId, category: ChannelId,
                                  series: Option<string>, books: Option<string>)
    ensures var log := DeleteCalls(cs, series, books) + CreateCalls(guild, category, series, books);
            forall i, j :: 0 <= i < |log| && 0 <= j < |log| && log[i].CreateCall? && log[j].DeleteCall? ==> j < i
  {
    DeleteCallsAreDeletes(cs, series, books);
  }

  /** A channel whose name carries neither stat prefix. */
  predicate Unrelated(c: Channel) {
    !StartsWith(c.name, SERIES_STAT_PREFIX) && !StartsWith(c.name, BOOKS_STAT_PREFIX)
  }

  /** A channel matching neither prefix is never deleted, whichever metrics are present. */
  lemma {:induction false} UnrelatedChannelsKept(cs: seq<Channel>, series: Option<string>, books: Option<string>)
    ensures forall c :: c in cs && Unrelated(c) ==> c in Kept(cs, series, books)
    decreases |cs|
  {
    if cs != [] {
      var init, last := cs[..|cs| - 1], cs[|cs| - 1];
      UnrelatedChannelsKept(init, series, books);
      var kept := Kept(cs, series, books);
      assert kept == Kept(init, series, books) + (if IsStale(last, series, books) then [] else [last]);
      forall c | c in cs && Unrelated(c)
        ensures c in kept
      {
        var k :| 0 <= k < |cs| && cs[k] == c;
        if k < |init| {
          assert init[k] == c;
        }
      }
    }
  }

  /** With both metrics absent the pass deletes nothing. */
  lemma {:induction false} NoMetricsKeepsAll(cs: seq<Channel>)
    ensures Kept(cs, None, None) == cs
    decreases |cs|
  {
    if cs != [] {
      NoMetricsKeepsAll(cs[..|cs| - 1]);
      assert cs == cs[..|cs| - 1] + [cs[|cs| - 1]];
    }
  }

  /** The pass over a snapshot and the requests it sends, one step at a time. */
  lemma KeptStep(cs: seq<Channel>, i: nat, series: Option<string>, books: Option<string>)
    requires i < |cs|
    ensures Kept(cs[..i + 1], series, books)
            == Kept(cs[..i], series, books) + (if IsStale(cs[i], series, books) then [] else [cs[i]])
    ensures DeleteCalls(cs[..i + 1], series, books) == DeleteCalls(cs[..i], series, books) + ChannelDeletes(cs[i], series, books)
  {
    assert cs[..i + 1][..i] == cs[..i];
  }

  /** With distinct ids, the current snapshot channel's id occurs nowhere else in the partly processed list. */
  lemma CurrentIdUnique(cs: seq<Channel>, i: nat, series: Option<string>, books: Option<string>)
    requires DistinctIds(cs) && i < |cs|
    ensures forall c :: c in Kept(cs[..i], series, books) ==> c.id != cs[i].id
    ensures forall c :: c in cs[i + 1..] ==> c.id != cs[i].id
  {
    DistinctIdsIndex(cs);
    KeptSubset(cs[..i], series, books);
    forall c | c in Kept(cs[..i], series, books) ensures c.id != cs[i].id {
      var j :| 0 <= j < i && cs[..i][j] == c;
      assert cs[j] == c;
    }
    forall c | c in cs[i + 1..] ensures c.id != cs[i].id {
      var j :| 0 <= j < |cs[i + 1..]| && cs[i + 1..][j] == c;
      assert cs[i + 1 + j] == c;
    }
  }

  /** Deleting `x` from `kept + [x] + rest`, where no other channel carries its id, leaves `kept + rest`. */
  lemma DeleteMiddle(kept: seq<Channel>, x: Channel, rest: seq<Channel>)
    requires forall c :: c in kept ==> c.id != x.id
    requires forall c :: c in rest ==> c.id != x.id
    ensures Without(kept + [x] + rest, x.id) == kept + rest
    ensures Without(kept + rest, x.id) == kept + rest
  {
    var id := x.id;
    WithoutAbsent(kept, id);
    WithoutAbsent(rest, id);
    WithoutAppend(kept, rest, id);
    var front := kept + [x];
    WithoutAppend(front, rest, id);
    assert front[..|front| - 1] == kept;
    assert Without(front, id) == Without(kept, id);
  }

  /** The same, with the deleted channel at the head of `tail`. */
  lemma DeleteHead(kept: seq<Channel>, tail: seq<Channel>)
    requires tail != []
    requires forall c :: c in kept ==> c.id != tail[0].id
    requires forall c :: c in tail[1..] ==> c.id != tail[0].id
    ensures Without(kept + tail, tail[0].id) == kept + tail[1..]
    ensures Without(kept + tail[1..], tail[0].id) == kept + tail[1..]
  {
    DeleteMiddle(kept, tail[0], tail[1..]);
    ConsSplit(kept, tail);
  }

  lemma ConsSplit(kept: seq<Channel>, tail: seq<Channel>)
    requires tail != []
    ensures kept + tail == kept + [tail[0]] + tail[1..]
  {
    assert tail == [tail[0]] + tail[1..];
  }

  /** Deleting the current snapshot channel from the partly processed list removes exactly it. */
  lemma DeleteStep(cs: seq<Channel>, i: nat, series: Option<string>, books: Option<string>)
    requires DistinctIds(cs) && i < |cs|
    ensures Without(Kept(cs[..i], series, books) + cs[i..], cs[i].id) == Kept(cs[..i], series, books) + cs[i + 1..]
    ensures Without(Kept(cs[..i], series, books) + cs[i + 1..], cs[i].id) == Kept(cs[..i], series, books) + cs[i + 1..]
  {
    CurrentIdUnique(cs, i, series, books);
    assert cs[i..][0] == cs[i] && cs[i..][1..] == cs[i + 1..];
    DeleteHead(Kept(cs[..i], series, books), cs[i..]);
  }

  /** The list after the pass has handled the first `i` snapshot channels. */
  function PassPartial(cs: seq<Channel>, i: nat, series: Option<string>, books: Option<string>): seq<Channel>
    requires i <= |cs|
  {
    Kept(cs[..i], series, books) + cs[i..]
  }

  /** One iteration of the pass on the current list: the series test, then the issues test. */
  function DeletePass(current: seq<Channel>, c: Channel, series: Option<string>, books: Option<string>): seq<Channel> {
    var afterSeries := if SeriesHit(c, series) then Without(current, c.id) else current;
    if BooksHit(c, books) then Without(afterSeries, c.id) else afterSeries
  }

  /** An iteration of the pass moves the list from one partial state to the next. */
  lemma PassStep(cs: seq<Channel>, i: nat, series: Option<string>, books: Option<string>)
    requires DistinctIds(cs) && i < |cs|
    ensures DeletePass(PassPartial(cs, i, series, books), cs[i], series, books) == PassPartial(cs, i + 1, series, books)
  {
    KeptStep(cs, i, series, books);
    if IsStale(cs[i], series, books) {
      PassStepStale(cs, i, series, books);
    } else {
      PassStepKept(cs, i, series, books);
    }
  }

  lemma PassStepStale(cs: seq<Channel>, i: nat, series: Option<string>, books: Option<string>)
    requires DistinctIds(cs) && i < |cs| && IsStale(cs[i], series, books)
    requires Kept(cs[..i + 1], series, books) == Kept(cs[..i], series, books)
    ensures DeletePass(PassPartial(cs, i, series, books), cs[i], series, books) == PassPartial(cs, i + 1, series, books)
  {
    DeleteStep(cs, i, series, books);
  }

  lemma PassStepKept(cs: seq<Channel>, i: nat, series: Option<string>, books: Option<string>)
    requires i < |cs| && !IsStale(cs[i], series, books)
    requires Kept(cs[..i + 1], series, books) == Kept(cs[..i], series, books) + [cs[i]]
    ensures DeletePass(PassPartial(cs, i, series, books), cs[i], series, books) == PassPartial(cs, i + 1, series, books)
  {
    var kept, rest := Kept(cs[..i], series, books), cs[i + 1..];
    assert cs[i..] == [cs[i]] + rest;
    assert kept + cs[i..] == kept + [cs[i]] + rest;
  }

  /** Before the pass the list is the snapshot; after it, the survivors. */
  lemma PassEnds(cs: seq<Channel>, series: Option<string>, books: Option<string>)
    ensures PassPartial(cs, 0, series, books) == cs
    ensures PassPartial(cs, |cs|, series, books) == Kept(cs, series, books)
    ensures DeleteCalls(cs[..0], series, books) == [] && cs[..|cs|] == cs
  {
    assert cs[..0] == [] && cs[0..] == cs;
    assert cs[..|cs|] == cs && cs[|cs|..] == [];
  }

  lemma LogAssoc(log: seq<Call>, d: seq<Call>, e: seq<Call>)
    ensures log + d + e == log + (d + e)
  {
  }

  lemma ConcatInit(a: seq<Channel>, b: seq<Channel>)
    requires b != []
    ensures a + b != [] && (a + b)[..|a + b| - 1] == a + b[..|b| - 1] && (a + b)[|a + b| - 1] == b[|b| - 1]
  {
  }

  lemma ChannelsAssoc(cs: seq<Channel>, d: seq<Channel>, e: seq<Channel>)
    ensures cs + d + e == cs + (d + e)
  {
  }

  /** The stat channels and their requests are the series part followed by the issues part. */
  lemma NewStatChannelsSplit(firstId: ChannelId, guild: GuildId, category: ChannelId,
                             series: Option<string>, books: Option<string>)
    ensures NewStatChannels(firstId, category, series, books)
            == StatChannelIfPresent(firstId, SERIES_STAT_PREFIX, series, category)
               + StatChannelIfPresent(firstId + |StatChannelIfPresent(firstId, SERIES_STAT_PREFIX, series, category)|,
                                      BOOKS_STAT_PREFIX, books, category)
    ensures CreateCalls(guild, category, series, books)
            == StatCallIfPresent(guild, SERIES_STAT_PREFIX, series, category)
               + StatCallIfPresent(guild, BOOKS_STAT_PREFIX, books, category)
  {
  }

  // ---------------------------------------------------------------------
  // The remote state
  // ---------------------------------------------------------------------

  /**
   * What the bot sees of Discord. Every operation of main.rs works on the first
   * guild `get_guilds` lists, so `channels` is that guild's channel list, in the order
   * `get_channels` lists it.
   */
  class Discord {
    /** The guilds the bot belongs to, in the order `get_guilds` lists them. */
    var guilds: seq<GuildId>
    /** The first guild's channels, in listing order. */
    var channels: seq<Channel>
    /** The id the server gives the next channel it creates. */
    var nextId: ChannelId
    /** Every mutating request sent so far, oldest first. */
    var calls: seq<Call>

    /** Channel ids are distinct and below the next id to be handed out. */
    ghost predicate Valid()
      reads this
    {
      DistinctIds(channels) && forall c :: c in channels ==> c.id < nextId
    }

    constructor (guilds: seq<GuildId>, channels: seq<Channel>, nextId: ChannelId)
      requires DistinctIds(channels) && forall c :: c in channels ==> c.id < nextId
      ensures Valid()
      ensures this.guilds == guilds && this.channels == channels && this.nextId == nextId && calls == []
    {
      this.guilds := guilds;
      this.channels := channels;
      this.nextId := nextId;
      calls := [];
    }

    /** `get_guild`: the first listed guild; an error when there is none. */
    function GetGuild(): (r: Result<GuildId, ChatError>)
      reads this
      ensures r.Failure? <==> guilds == []
      ensures r.Failure? ==> r.error == NoGuild
      ensures r.Success? ==> r.value == guilds[0]
    {
      if guilds == [] then Failure(NoGuild) else Success(guilds[0])
    }

    /**
     * `get_discord_channel_id`: the id of the first channel of the
     * first guild whose name is exactly `name`; an error when there is no guild or
     * no such channel.
     */
    function GetDiscordChannelId(name: string): (r: Result<ChannelId, ChatError>)
      reads this
      ensures guilds == [] ==> r == Failure(NoGuild)
      ensures guilds != [] && (forall c :: c in channels ==> c.name != name) ==> r == Failure(NoSuchChannel(name))
      ensures guilds != [] && (exists c :: c in channels && c.name == name) ==> r.Success?
      ensures r.Success? ==>
                exists i :: 0 <= i < |channels| && channels[i].name == name && channels[i].id == r.value
                         && forall j :: 0 <= j < i ==> channels[j].name != name
    {
      match GetGuild()
      case Failure(e) => Failure(e)
      case Success(_) =>
        match FindByName(channels, name)
        case None => Failure(NoSuchChannel(name))
        case Some(i) => Success(channels[i].id)
    }

    /** `channel.delete(http)`: the list loses the channel with that id. */
    method DeleteChannel(id: ChannelId)
      requires Valid()
      modifies this
      ensures Valid()
      ensures guilds == old(guilds) && nextId == old(nextId)
      ensures channels == Without(old(channels), id)
      ensures calls == old(calls) + [DeleteCall(id)]
    {
      WithoutKeepsDistinct(channels, id);
      WithoutSubset(channels, id);
      channels := Without(channels, id);
      calls := calls + [DeleteCall(id)];
    }

    /** `create_channel(guild, …)`: a new channel with the next id, appended to the list. */
    method CreateChannel(g: GuildId, name: string, kind: ChannelKind, parent: Option<ChannelId>)
      returns (id: ChannelId)
      requires Valid()
      modifies this
      ensures Valid()
      ensures id == old(nextId) && nextId == old(nextId) + 1 && guilds == old(guilds)
      ensures channels == old(channels) + [Channel(id, name, kind, parent)]
      ensures calls == old(calls) + [CreateCall(g, name, kind, parent)]
    {
      id := nextId;
      AppendFreshKeepsDistinct(channels, Channel(id, name, kind, parent));
      channels := channels + [Channel(id, name, kind, parent)];
      nextId := nextId + 1;
      calls := calls + [CreateCall(g, name, kind, parent)];
    }

    /** `send_message`: posts an embed; no channel changes. */
    method SendMessage(channel: ChannelId, embed: Embed)
      modifies this
      ensures guilds == old(guilds) && channels == old(channels) && nextId == old(nextId)
      ensures calls == old(calls) + [SendCall(channel, embed)]
    {
      calls := calls + [SendCall(channel, embed)];
    }

    /**
     * `find_or_create_channel`: the id of the first channel named
     * `name`, creating nothing; otherwise a new Category channel of that name,
     * without parent, and its id.
     */
    method FindOrCreateChannel(name: string) returns (r: Result<ChannelId, ChatError>)
      requires Valid()
      modifies this
      ensures Valid() && guilds == old(guilds)
      ensures old(guilds) == [] ==> r == Failure(NoGuild) && unchanged(this)
      ensures old(guilds) != [] ==>
                r == Success(CategoryId(old(channels), old(nextId), name))
                && channels == WithCategory(old(channels), old(nextId), name)
                && calls == old(calls) + CategoryCreates(old(channels), guilds[0], name)
                && nextId == old(nextId) + |CategoryCreates(old(channels), guilds[0], name)|
    {
      var guild := GetGuild();
      if guild.Failure? {
        return Failure(guild.error);
      }
      var found := FindByName(channels, name);
      if found.Some? {
        return Success(channels[found.value].id);
      }
      var id := CreateChannel(guild.value, name, Category, None);
      return Success(id);
    }

    /** One iteration of the deleting pass: the series test first, then the issues test. */
    method DeletePrefixed(c: Channel, series: Option<string>, books: Option<string>)
      requires Valid()
      modifies this
      ensures Valid() && guilds == old(guilds) && nextId == old(nextId)
      ensures channels == DeletePass(old(channels), c, series, books)
      ensures calls == old(calls) + ChannelDeletes(c, series, books)
    {
      ghost var calls0 := calls;
      DeleteIf(series.Some? && StartsWith(c.name, SERIES_STAT_PREFIX), c.id);
      DeleteIf(books.Some? && StartsWith(c.name, BOOKS_STAT_PREFIX), c.id);
      LogAssoc(calls0, if SeriesHit(c, series) then [DeleteCall(c.id)] else [],
               if BooksHit(c, books) then [DeleteCall(c.id)] else []);
    }

    /** One prefix test of the pass: a delete request when it matched. */
    method DeleteIf(hit: bool, id: ChannelId)
      requires Valid()
      modifies this
      ensures Valid() && guilds == old(guilds) && nextId == old(nextId)
      ensures channels == if hit then Without(old(channels), id) else old(channels)
      ensures calls == old(calls) + if hit then [DeleteCall(id)] else []
    {
      if hit {
        DeleteChannel(id);
      }
    }

    /**
     * The deleting pass of `replace_stat_channels`: over the list as
     * fetched, delete each channel whose name starts with the prefix of a present
     * metric, testing the series prefix first and then the issues prefix.
     */
    method DeleteStaleChannels(snapshot: seq<Channel>, series: Option<string>, books: Option<string>)
      requires Valid() && snapshot == channels
      modifies this
      ensures Valid() && guilds == old(guilds) && nextId == old(nextId)
      ensures channels == Kept(snapshot, series, books)
      ensures calls == old(calls) + DeleteCalls(snapshot, series, books)
    {
      ghost var calls0 := calls;
      PassEnds(snapshot, series, books);
      var i := 0;
      while i < |snapshot|
        invariant 0 <= i <= |snapshot|
        invariant Valid() && guilds == old(guilds) && nextId == old(nextId)
        invariant DistinctIds(snapshot)
        invariant channels == PassPartial(snapshot, i, series, books)
        invariant calls == calls0 + DeleteCalls(snapshot[..i], series, books)
      {
        PassStep(snapshot, i, series, books);
        KeptStep(snapshot, i, series, books);
        LogAssoc(calls0, DeleteCalls(snapshot[..i], series, books), ChannelDeletes(snapshot[i], series, books));
        DeletePrefixed(snapshot[i], series, books);
        i := i + 1;
      }
    }

    /**
     * `replace_stat_channels`: the deleting pass over the channel
     * list as fetched, then one voice channel `prefix + value` in `category` per
     * present metric, series first.
     */
    method ReplaceStatChannels(category: ChannelId, series: Option<string>, books: Option<string>)
      returns (r: Outcome<ChatError>)
      requires Valid()
      modifies this
      ensures Valid() && guilds == old(guilds)
      ensures old(guilds) == [] ==> r == Fail(NoGuild) && unchanged(this)
      ensures old(guilds) != [] ==>
                r == Pass
                && channels == Kept(old(channels), series, books) + NewStatChannels(old(nextId), category, series, books)
                && calls == old(calls) + DeleteCalls(old(channels), series, books) + CreateCalls(guilds[0], category, series, books)
                && nextId == old(nextId) + |NewStatChannels(old(nextId), category, series, books)|
    {
      var guild := GetGuild();
      if guild.Failure? {
        return Fail(guild.error);
      }
      DeleteStaleChannels(channels, series, books);
      CreateStatChannels(guild.value, category, series, books);
      return Pass;
    }

    /** The creating phase of `replace_stat_channels`: series first, then issues. */
    method CreateStatChannels(g: GuildId, category: ChannelId, series: Option<string>, books: Option<string>)
      requires Valid()
      modifies this
      ensures Valid() && guilds == old(guilds)
      ensures channels == old(channels) + NewStatChannels(old(nextId), category, series, books)
      ensures calls == old(calls) + CreateCalls(g, category, series, books)
      ensures nextId == old(nextId) + |NewStatChannels(old(nextId), category, series, books)|
    {
      ghost var channels0, calls0, id0 := channels, calls, nextId;
      CreateStatChannel(g, category, SERIES_STAT_PREFIX, series);
      ghost var id1 := nextId;
      CreateStatChannel(g, category, BOOKS_STAT_PREFIX, books);
      NewStatChannelsSplit(id0, g, category, series, books);
      LogAssoc(calls0, StatCallIfPresent(g, SERIES_STAT_PREFIX, series, category),
               StatCallIfPresent(g, BOOKS_STAT_PREFIX, books, category));
      ChannelsAssoc(channels0, StatChannelIfPresent(id0, SERIES_STAT_PREFIX, series, category),
                    StatChannelIfPresent(id1, BOOKS_STAT_PREFIX, books, category));
    }

    /** Creates the stat channel for one metric when it is present, else nothing. */
    method CreateStatChannel(g: GuildId, category: ChannelId, prefix: string, value: Option<string>)
      requires Valid()
      modifies this
      ensures Valid() && guilds == old(guilds)
      ensures channels == old(channels) + StatChannelIfPresent(old(nextId), prefix, value, category)
      ensures calls == old(calls) + StatCallIfPresent(g, prefix, value, category)
      ensures nextId == old(nextId) + |StatChannelIfPresent(old(nextId), prefix, value, category)|
    {
      if value.Some? {
        var _ := CreateChannel(g, prefix + value.value, Voice, Some(category));
      }
    }
  }
}
