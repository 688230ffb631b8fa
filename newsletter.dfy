/**
 * The newsletter job (`write_komga_recently_added` and the writers it calls in
 * main.rs): gather the recent series and issues, create the newsletter's
 * directories, download every cover into the thumbnails directory, write the
 * page, and post an embed linking to it.
 *
 * The file system is a `FileStore` object (the directories that exist and the
 * files with their contents). Komga's answers and the cover downloads are inputs.
 * Handlebars rendering is abstracted: the page written is the template's path
 * together with the data handed to it. A `panic!` (an `expect` or `unwrap` that
 * fires) ends the job with `Panicked`.
 */
module Newsletter {
  import opened Wrappers
  import opened Komga
  import Utf8
  import Paths
  import Recent
  import Decimal
  import Libraries
  import Settings
  import Chat

  /**
   * The failures of the file operations. `BlockedByFile(p)` is what `create_dir_all(p)`
   * returns when a file stands where one of `p`'s directories should be; the source's
   * error (ENOTDIR when an inner ancestor is a file, `AlreadyExists` when `p` itself is)
   * is merged into this one case.
   */
  datatype IoError = NotFound(path: string) | IsADirectory(path: string) | BlockedByFile(path: string)

  datatype JobError = Io(io: IoError) | Api(api: ApiError)

  /** How a job ends: it completes, returns an error through `?`, or panics. */
  datatype JobOutcome = Completed | Failed(error: JobError) | Panicked(message: string)

  /** The JSON data `write_newsletter_index` hands to the template. */
  datatype TemplateData = TemplateData(publicUrl: string, series: seq<Series>, issues: seq<Book>, date: string)

  /** A file's contents: raw bytes, or a page rendered from a template and its data. */
  datatype Content = Bytes(bytes: seq<Utf8.Byte>) | Page(template: string, data: TemplateData)

  /** A cover download: Komga's answer to a GET of the cover endpoint. */
  type Download = string -> Result<seq<Utf8.Byte>, ApiError>

  // ---------------------------------------------------------------------
  // The file system
  // ---------------------------------------------------------------------

  /** The directory a file goes in exists (a path without '/' lives in the working directory). */
  predicate ParentExists(dirs: set<string>, path: string) {
    match Paths.Parent(path)
    case None => true
    case Some(d) => d == [] || d in dirs
  }

  /** `File::create` succeeds when the parent directory exists and the path is not a directory. */
  predicate CanCreate(dirs: set<string>, path: string) {
    path !in dirs && ParentExists(dirs, path)
  }

  function CreateError(dirs: set<string>, path: string): IoError {
    if path in dirs then IsADirectory(path) else NotFound(path)
  }

  class FileStore {
    var dirs: set<string>
    var files: map<string, Content>

    /** No path is both a directory and a file. */
    ghost predicate Valid()
      reads this
    {
      dirs !! files.Keys
    }

    constructor (dirs: set<string>, files: map<string, Content>)
      requires dirs !! files.Keys
      ensures Valid() && this.dirs == dirs && this.files == files
    {
      this.dirs := dirs;
      this.files := files;
    }

    /**
     * `std::fs::create_dir_all`: every ancestor directory of `p` and `p` itself exist
     * afterwards; it fails, creating nothing, when one of them is a file.
     */
    method CreateDirAll(p: string) returns (r: Outcome<IoError>)
      requires Valid()
      modifies this
      ensures Valid() && files == old(files)
      ensures Paths.Ancestors(p) !! old(files).Keys ==> r == Pass && dirs == old(dirs) + Paths.Ancestors(p)
      ensures !(Paths.Ancestors(p) !! old(files).Keys) ==> r == Fail(BlockedByFile(p)) && dirs == old(dirs)
    {
      if Paths.Ancestors(p) !! files.Keys {
        dirs := dirs + Paths.Ancestors(p);
        return Pass;
      }
      return Fail(BlockedByFile(p));
    }

    /** `File::create`: a new empty file (an existing one is truncated). */
    method Create(path: string) returns (r: Outcome<IoError>)
      requires Valid()
      modifies this
      ensures Valid() && dirs == old(dirs)
      ensures CanCreate(old(dirs), path) ==> r == Pass && files == old(files)[path := Bytes([])]
      ensures !CanCreate(old(dirs), path) ==> r == Fail(CreateError(old(dirs), path)) && files == old(files)
    {
      if !CanCreate(dirs, path) {
        return Fail(CreateError(dirs, path));
      }
      files := files[path := Bytes([])];
      return Pass;
    }

    /** `write_all` on a file just created. */
    method Write(path: string, content: Content)
      requires Valid() && path in files
      modifies this
      ensures Valid() && dirs == old(dirs)
      ensures files == old(files)[path := content]
    {
      files := files[path := content];
    }
  }

  // ---------------------------------------------------------------------
  // The thumbnail writers (`write_series_thumbnails`, `write_issue_thumbnails`)
  // ---------------------------------------------------------------------

  /** One cover to fetch: the file it goes to and the endpoint it comes from. */
  datatype CoverJob = CoverJob(path: string, url: string)

  /** `write_series_thumbnails`: one `series-<id>.jpg` per series, fetched from the series endpoint. */
  function SeriesCoverJobs(contentDir: string, date: string, komgaUrl: string, series: seq<Series>): seq<CoverJob> {
    seq(|series|, k requires 0 <= k < |series| =>
      CoverJob(Paths.SeriesThumbnailPath(contentDir, date, series[k].id), Paths.SeriesCoverEndpoint(komgaUrl, series[k].id)))
  }

  /** `write_issue_thumbnails`: one `book-<id>.jpg` per issue, fetched from the book endpoint. */
  function BookCoverJobs(contentDir: string, date: string, komgaUrl: string, books: seq<Book>): seq<CoverJob> {
    seq(|books|, k requires 0 <= k < |books| =>
      CoverJob(Paths.BookThumbnailPath(contentDir, date, books[k].id), Paths.BookCoverEndpoint(komgaUrl, books[k].id)))
  }

  /** The files a list of cover jobs writes. */
  function JobPaths(jobs: seq<CoverJob>): set<string> {
    set k | 0 <= k < |jobs| :: jobs[k].path
  }

  lemma JobPathsTail(jobs: seq<CoverJob>)
    requires jobs != []
    ensures jobs[0].path in JobPaths(jobs)
    ensures JobPaths(jobs[1..]) <= JobPaths(jobs)
  {
    forall p | p in JobPaths(jobs[1..]) ensures p in JobPaths(jobs) {
      var k :| 0 <= k < |jobs[1..]| && jobs[1..][k].path == p;
      assert jobs[k + 1].path == p;
    }
  }

  /** `after` still holds every file of `before`, with the same contents outside `touched`. */
  predicate KeptOutside(before: map<string, Content>, after: map<string, Content>, touched: set<string>) {
    before.Keys <= after.Keys && forall p :: p in before && p !in touched ==> after[p] == before[p]
  }

  /** Keeping the files outside `s1` and then those outside `s2` keeps those outside any set holding both. */
  lemma KeptOutsideTrans(a: map<string, Content>, b: map<string, Content>, c: map<string, Content>,
                         s1: set<string>, s2: set<string>, s: set<string>)
    requires KeptOutside(a, b, s1) && KeptOutside(b, c, s2)
    requires s1 <= s && s2 <= s
    ensures KeptOutside(a, c, s)
  {
  }

  /** Jobs that write one file fetch it from one endpoint. */
  predicate PathsDetermineUrls(jobs: seq<CoverJob>) {
    forall k, l :: 0 <= k < |jobs| && 0 <= l < |jobs| && jobs[k].path == jobs[l].path ==> jobs[k].url == jobs[l].url
  }

  /** Every job's file exists and holds the cover downloaded for it. */
  predicate CoversWritten(files: map<string, Content>, jobs: seq<CoverJob>, download: Download) {
    forall k :: 0 <= k < |jobs| ==>
      && jobs[k].path in files
      && download(jobs[k].url).Success?
      && files[jobs[k].path] == Bytes(download(jobs[k].url).value)
  }

  /** Covers already written stay written while files outside their paths change. */
  lemma CoversWrittenKept(before: map<string, Content>, after: map<string, Content>, jobs: seq<CoverJob>,
                          download: Download, touched: set<string>)
    requires CoversWritten(before, jobs, download)
    requires KeptOutside(before, after, touched)
    requires JobPaths(jobs) !! touched
    ensures CoversWritten(after, jobs, download)
  {
    forall k | 0 <= k < |jobs|
      ensures jobs[k].path in after && after[jobs[k].path] == before[jobs[k].path]
    {
      assert jobs[k].path in JobPaths(jobs);
    }
  }

  /** The files after a writer, and how it ended. */
  datatype Written = Written(files: map<string, Content>, outcome: Outcome<JobError>)

  /**
   * A thumbnail writer, job by job: create the file, download the cover, write it.
   * The first failure ends the writer; a failed download leaves its file empty.
   */
  function WriteCovers(dirs: set<string>, files: map<string, Content>, jobs: seq<CoverJob>, download: Download): Written
    decreases |jobs|
  {
    if jobs == [] then Written(files, Pass)
    else if !CanCreate(dirs, jobs[0].path) then Written(files, Fail(Io(CreateError(dirs, jobs[0].path))))
    else
      var created := files[jobs[0].path := Bytes([])];
      match download(jobs[0].url)
      case Failure(e) => Written(created, Fail(Api(e)))
      case Success(bytes) => WriteCovers(dirs, created[jobs[0].path := Bytes(bytes)], jobs[1..], download)
  }

  /** Whether every file of the writer can be created and every cover downloaded. */
  predicate AllCoversWritable(dirs: set<string>, jobs: seq<CoverJob>, download: Download) {
    forall k :: 0 <= k < |jobs| ==> CanCreate(dirs, jobs[k].path) && download(jobs[k].url).Success?
  }

  /** A writer completes exactly when every file can be created and every download succeeds. */
  lemma {:induction false} WriteCoversPasses(dirs: set<string>, files: map<string, Content>, jobs: seq<CoverJob>,
                                             download: Download)
    ensures WriteCovers(dirs, files, jobs, download).outcome == Pass <==> AllCoversWritable(dirs, jobs, download)
    decreases |jobs|
  {
    if jobs != [] && CanCreate(dirs, jobs[0].path) && download(jobs[0].url).Success? {
      var next := files[jobs[0].path := Bytes([])][jobs[0].path := Bytes(download(jobs[0].url).value)];
      WriteCoversPasses(dirs, next, jobs[1..], download);
      assert forall k :: 1 <= k < |jobs| ==> jobs[k] == jobs[1..][k - 1];
    }
  }

  /**
   * A writer, however it ends, removes no file and changes no file that is not
   * one of its jobs' paths.
   */
  lemma {:induction false} WriteCoversKeepsOthers(dirs: set<string>, files: map<string, Content>, jobs: seq<CoverJob>,
                                                  download: Download)
    ensures KeptOutside(files, WriteCovers(dirs, files, jobs, download).files, JobPaths(jobs))
    decreases |jobs|
  {
    if jobs != [] && CanCreate(dirs, jobs[0].path) {
      JobPathsTail(jobs);
      if download(jobs[0].url).Success? {
        var next := files[jobs[0].path := Bytes([])][jobs[0].path := Bytes(download(jobs[0].url).value)];
        WriteCoversKeepsOthers(dirs, next, jobs[1..], download);
      }
    }
  }

  /**
   * When a writer completes, every job's file exists and holds the cover downloaded
   * for it, also when two jobs write one file from one endpoint.
   */
  lemma {:induction false} WriteCoversContents(dirs: set<string>, files: map<string, Content>, jobs: seq<CoverJob>,
                                               download: Download)
    requires AllCoversWritable(dirs, jobs, download)
    requires PathsDetermineUrls(jobs)
    ensures CoversWritten(WriteCovers(dirs, files, jobs, download).files, jobs, download)
    decreases |jobs|
  {
    if jobs != [] {
      var next := files[jobs[0].path := Bytes([])][jobs[0].path := Bytes(download(jobs[0].url).value)];
      var rest := jobs[1..];
      assert forall k :: 1 <= k < |jobs| ==> jobs[k] == rest[k - 1];
      var after := WriteCovers(dirs, next, rest, download).files;
      assert WriteCovers(dirs, files, jobs, download).files == after;
      WriteCoversContents(dirs, next, rest, download);
      WriteCoversKeepsOthers(dirs, next, rest, download);
      if l :| 0 <= l < |rest| && rest[l].path == jobs[0].path {
        assert jobs[l + 1].url == jobs[0].url;
      } else {
        assert jobs[0].path !in JobPaths(rest);
      }
    }
  }

  /**
   * The loop of a thumbnail writer: for each job, `File::create`, the download, and
   * `write_all`, each returning on failure through `?`.
   */
  method WriteCoverFiles(fs: FileStore, jobs: seq<CoverJob>, download: Download) returns (r: Outcome<JobError>)
    requires fs.Valid()
    modifies fs
    ensures fs.Valid() && fs.dirs == old(fs.dirs)
    ensures Written(fs.files, r) == WriteCovers(old(fs.dirs), old(fs.files), jobs, download)
  {
    var i := 0;
    assert jobs[i..] == jobs;
    while i < |jobs|
      invariant 0 <= i <= |jobs|
      invariant fs.Valid() && fs.dirs == old(fs.dirs)
      invariant WriteCovers(fs.dirs, fs.files, jobs[i..], download) == WriteCovers(old(fs.dirs), old(fs.files), jobs, download)
    {
      var job := jobs[i];
      assert jobs[i..][0] == job && jobs[i..][1..] == jobs[i + 1..];
      var created := fs.Create(job.path);
      if created.Fail? {
        return Fail(Io(created.error));
      }
      var bytes := download(job.url);
      if bytes.Failure? {
        return Fail(Api(bytes.error));
      }
      fs.Write(job.path, Bytes(bytes.value));
      i := i + 1;
    }
    return Pass;
  }

  /** Distinct ids give distinct cover files, so no cover overwrites another. */
  lemma SeriesCoverPathsDistinct(contentDir: string, date: string, komgaUrl: string, series: seq<Series>)
    requires forall k, l :: 0 <= k < l < |series| ==> series[k].id != series[l].id
    ensures forall k, l :: 0 <= k < l < |series| ==>
              SeriesCoverJobs(contentDir, date, komgaUrl, series)[k].path != SeriesCoverJobs(contentDir, date, komgaUrl, series)[l].path
  {
    forall k, l | 0 <= k < l < |series|
      ensures SeriesCoverJobs(contentDir, date, komgaUrl, series)[k].path != SeriesCoverJobs(contentDir, date, komgaUrl, series)[l].path
    {
      Paths.ThumbnailPathsInjective(contentDir, date, series[k].id, series[l].id);
    }
  }

  lemma BookCoverPathsDistinct(contentDir: string, date: string, komgaUrl: string, books: seq<Book>)
    requires forall k, l :: 0 <= k < l < |books| ==> books[k].id != books[l].id
    ensures forall k, l :: 0 <= k < l < |books| ==>
              BookCoverJobs(contentDir, date, komgaUrl, books)[k].path != BookCoverJobs(contentDir, date, komgaUrl, books)[l].path
  {
    forall k, l | 0 <= k < l < |books|
      ensures BookCoverJobs(contentDir, date, komgaUrl, books)[k].path != BookCoverJobs(contentDir, date, komgaUrl, books)[l].path
    {
      Paths.ThumbnailPathsInjective(contentDir, date, books[k].id, books[l].id);
    }
  }

  /** Cover files are named after the id, so jobs that write one file fetch it from one endpoint. */
  lemma CoverJobsConsistent(contentDir: string, date: string, komgaUrl: string, series: seq<Series>, books: seq<Book>)
    ensures PathsDetermineUrls(SeriesCoverJobs(contentDir, date, komgaUrl, series))
    ensures PathsDetermineUrls(BookCoverJobs(contentDir, date, komgaUrl, books))
  {
    var sj, bj := SeriesCoverJobs(contentDir, date, komgaUrl, series), BookCoverJobs(contentDir, date, komgaUrl, books);
    forall k, l | 0 <= k < |sj| && 0 <= l < |sj| && sj[k].path == sj[l].path ensures sj[k].url == sj[l].url {
      Paths.ThumbnailPathsInjective(contentDir, date, series[k].id, series[l].id);
    }
    forall k, l | 0 <= k < |bj| && 0 <= l < |bj| && bj[k].path == bj[l].path ensures bj[k].url == bj[l].url {
      Paths.ThumbnailPathsInjective(contentDir, date, books[k].id, books[l].id);
    }
  }

  /** The series covers, the issue covers and the page are different files, whatever the ids. */
  lemma NewsletterFilesApart(contentDir: string, date: string, komgaUrl: string, series: seq<Series>, books: seq<Book>)
    ensures JobPaths(SeriesCoverJobs(contentDir, date, komgaUrl, series)) !! JobPaths(BookCoverJobs(contentDir, date, komgaUrl, books))
    ensures Paths.IndexPath(contentDir, date) !in JobPaths(SeriesCoverJobs(contentDir, date, komgaUrl, series))
    ensures Paths.IndexPath(contentDir, date) !in JobPaths(BookCoverJobs(contentDir, date, komgaUrl, books))
  {
    var sj, bj := SeriesCoverJobs(contentDir, date, komgaUrl, series), BookCoverJobs(contentDir, date, komgaUrl, books);
    forall k, l | 0 <= k < |sj| && 0 <= l < |bj| ensures sj[k].path != bj[l].path {
      Paths.ThumbnailsDistinct(contentDir, date, series[k].id, books[l].id);
    }
    forall k | 0 <= k < |sj| ensures sj[k].path != Paths.IndexPath(contentDir, date) {
      Paths.IndexIsNotACover(contentDir, date, series[k].id);
    }
    forall k | 0 <= k < |bj| ensures bj[k].path != Paths.IndexPath(contentDir, date) {
      Paths.IndexIsNotACover(contentDir, date, books[k].id);
    }
  }

  // ---------------------------------------------------------------------
  // The page (`write_newsletter_index`)
  // ---------------------------------------------------------------------

  /** The `public_url` of the page: the configured public URL when there is one, else the Komga URL. */
  function PublicUrl(k: Settings.KomgaSettings): (u: string)
    ensures k.publicUrl.Some? ==> u == k.publicUrl.value
    ensures k.publicUrl.None? ==> u == k.url
  {
    k.publicUrl.GetOr(k.url)
  }

  const TEMPLATE_PANIC: string := "failed to register recently_added template"

  /** The page the job writes from its series and issues. */
  function IndexPage(config: Settings.Config, date: string, series: seq<Series>, books: seq<Book>): Content {
    Page(Paths.TemplatePath(config.newsletters.templatesDir), TemplateData(PublicUrl(config.komga), series, books, date))
  }

  /**
   * `write_newsletter_index`: create the page file, register the template (a missing
   * template file panics), then write the page rendered from the public URL, the
   * series, the issues and the date.
   */
  method WriteNewsletterIndex(fs: FileStore, config: Settings.Config, date: string, series: seq<Series>, books: seq<Book>)
    returns (r: JobOutcome)
    requires fs.Valid()
    modifies fs
    ensures fs.Valid() && fs.dirs == old(fs.dirs)
    ensures var index := Paths.IndexPath(config.newsletters.contentDir, date);
            !CanCreate(old(fs.dirs), index) ==> r == Failed(Io(CreateError(old(fs.dirs), index))) && fs.files == old(fs.files)
    ensures var index := Paths.IndexPath(config.newsletters.contentDir, date);
            CanCreate(old(fs.dirs), index) && Paths.TemplatePath(config.newsletters.templatesDir) !in old(fs.files)[index := Bytes([])] ==>
              r == Panicked(TEMPLATE_PANIC) && fs.files == old(fs.files)[index := Bytes([])]
    ensures var index := Paths.IndexPath(config.newsletters.contentDir, date);
            CanCreate(old(fs.dirs), index) && Paths.TemplatePath(config.newsletters.templatesDir) in old(fs.files)[index := Bytes([])] ==>
              r == Completed && fs.files == old(fs.files)[index := IndexPage(config, date, series, books)]
  {
    var index := Paths.IndexPath(config.newsletters.contentDir, date);
    var created := fs.Create(index);
    if created.Fail? {
      return Failed(Io(created.error));
    }
    if Paths.TemplatePath(config.newsletters.templatesDir) !in fs.files {
      return Panicked(TEMPLATE_PANIC);
    }
    fs.Write(index, IndexPage(config, date, series, books));
    return Completed;
  }

  // ---------------------------------------------------------------------
  // The embed
  // ---------------------------------------------------------------------

  const EMBED_TITLE: string := "Comics Weekly Update"
  const EMBED_DESCRIPTION: string := "Recently Added Comic series and issues"

  /**
   * The embed posted to the newsletter channel: a link to the page, the date and the
   * two counts as inline fields, and the first series' cover as thumbnail and image.
   */
  function NewsletterEmbed(newslettersUrl: string, date: string, series: seq<Series>, books: seq<Book>, postedAt: Timestamp)
    : Chat.Embed
    requires series != []
  {
    var image := Paths.SeriesImageUrl(newslettersUrl, date, series[0].id);
    Chat.Embed(
      EMBED_TITLE,
      Paths.NewsletterUrl(newslettersUrl, date),
      [Chat.EmbedField("Date", date, true),
       Chat.EmbedField("Series", Decimal.NatToString(|series|), true),
       Chat.EmbedField("Issues", Decimal.NatToString(|books|), true)],
      postedAt, image, image, EMBED_DESCRIPTION)
  }

  /** The counts the embed shows read back as the numbers of series and issues in the page. */
  lemma EmbedCountsAreExact(newslettersUrl: string, date: string, series: seq<Series>, books: seq<Book>, postedAt: Timestamp)
    requires series != []
    ensures var fields := NewsletterEmbed(newslettersUrl, date, series, books, postedAt).fields;
            |fields| == 3 && fields[0].value == date
            && Decimal.Value(fields[1].value) == |series| && Decimal.Value(fields[2].value) == |books|
  {
    Decimal.ValueOfNatToString(|series|);
    Decimal.ValueOfNatToString(|books|);
  }

  /**
   * The embed's links lead, through the file server mounted under the newsletters
   * URL, to the page and to the first series' cover the job wrote.
   */
  lemma EmbedLinksServed(contentDir: string, newslettersUrl: string, date: string, series: seq<Series>, books: seq<Book>,
                         postedAt: Timestamp)
    requires series != [] && Paths.IsSegment(date) && '/' !in series[0].id
    ensures var embed := NewsletterEmbed(newslettersUrl, date, series, books, postedAt);
            Paths.ServedFile(contentDir, embed.url[|newslettersUrl|..]) == Some(Paths.IndexPath(contentDir, date))
            && embed.image == embed.thumbnail
            && Paths.ServedFile(contentDir, embed.image[|newslettersUrl|..])
               == Some(Paths.SeriesThumbnailPath(contentDir, date, series[0].id))
  {
    Paths.ServedIndex(contentDir, newslettersUrl, date);
    Paths.ServedSeriesImage(contentDir, newslettersUrl, date, series[0].id);
  }

  // ---------------------------------------------------------------------
  // The job (`write_komga_recently_added`)
  // ---------------------------------------------------------------------

  const LIBRARY_PANIC: string := "failed to get library ids"
  const SERIES_PANIC: string := "failed to get latest series"
  const BOOKS_PANIC: string := "failed to get latest books"
  const CHANNEL_PANIC: string := "failed to get Discord channel id"
  const UNWRAP_PANIC: string := "called `Option::unwrap()` on a `None` value"

  /** The series and issues of one newsletter. */
  datatype Recently = Recently(series: seq<Series>, books: seq<Book>)

  /**
   * The gathering half of `write_komga_recently_added`: resolve the libraries (a failure panics), then the new series and the
   * new issues, both cut at one cutoff, eight days before `now`. Each Komga answer is a
   * page whose `content` may be missing, which panics.
   */
  function Gather(k: Settings.KomgaSettings, now: Timestamp, libraries: Result<seq<Library>, ApiError>,
                  seriesPage: Result<Option<seq<Series>>, ApiError>, booksPage: Result<Option<seq<Book>>, ApiError>)
    : (r: Result<Recently, JobOutcome>)
    ensures r.Failure? ==> r.error != Completed
    ensures Libraries.GetLibraryIds(k.libraries, libraries).Failure? <==> r == Failure(Panicked(LIBRARY_PANIC))
    ensures r.Success? ==>
              seriesPage.Success? && seriesPage.value.Some? && booksPage.Success? && booksPage.value.Some?
    ensures r.Success? ==>
              var items, cutoff := seriesPage.value.value, Recent.Cutoff(now);
              r.value.series <= items
              && (forall i :: 0 <= i < |r.value.series| ==> r.value.series[i].created > cutoff)
              && (|r.value.series| < |items| ==> items[|r.value.series|].created <= cutoff)
    ensures r.Success? ==>
              var newest, cutoff := Recent.NewestFirst(booksPage.value.value), Recent.Cutoff(now);
              r.value.books <= newest
              && (forall i :: 0 <= i < |r.value.books| ==> r.value.books[i].fileLastModified > cutoff)
              && (|r.value.books| < |newest| ==> newest[|r.value.books|].fileLastModified <= cutoff)
  {
    var cutoff := Recent.Cutoff(now);
    if Libraries.GetLibraryIds(k.libraries, libraries).Failure? then Failure(Panicked(LIBRARY_PANIC))
    else
      match seriesPage
      case Failure(e) => Failure(Failed(Api(e)))
      case Success(None) => Failure(Panicked(SERIES_PANIC))
      case Success(Some(items)) =>
        match booksPage
        case Failure(e) => Failure(Failed(Api(e)))
        case Success(None) => Failure(Panicked(BOOKS_PANIC))
        case Success(Some(books)) =>
          Success(Recently(Recent.RecentSeries(items, cutoff), Recent.TakeWhile(Recent.NewestFirst(books), Recent.ModifiedAfter(cutoff))))
  }

  /** `Gather`, with the issues sorted and reversed in place as `get_recent_books` does. */
  method GatherRecent(k: Settings.KomgaSettings, now: Timestamp, libraries: Result<seq<Library>, ApiError>,
                      seriesPage: Result<Option<seq<Series>>, ApiError>, booksPage: Result<Option<seq<Book>>, ApiError>)
    returns (r: Result<Recently, JobOutcome>)
    ensures r == Gather(k, now, libraries, seriesPage, booksPage)
  {
    var ids := Libraries.GetLibraryIds(k.libraries, libraries);
    if ids.Failure? {
      return Failure(Panicked(LIBRARY_PANIC));
    }
    var cutoff := Recent.Cutoff(now);
    if seriesPage.Failure? {
      return Failure(Failed(Api(seriesPage.error)));
    }
    if seriesPage.value.None? {
      return Failure(Panicked(SERIES_PANIC));
    }
    var series := Recent.RecentSeries(seriesPage.value.value, cutoff);
    if booksPage.Failure? {
      return Failure(Failed(Api(booksPage.error)));
    }
    if booksPage.value.None? {
      return Failure(Panicked(BOOKS_PANIC));
    }
    var books := Recent.RecentBooks(booksPage.value.value, cutoff);
    return Success(Recently(series, books));
  }

  /**
   * Whether every write of the job can succeed: no ancestor of the thumbnails directory
   * is a file, every cover file can be created once that directory exists and every
   * cover downloads, the page path is not a directory, and the template file exists.
   */
  predicate WritesPossible(dirs: set<string>, files: map<string, Content>, config: Settings.Config, date: string,
                           recent: Recently, download: Download)
  {
    var contentDir := config.newsletters.contentDir;
    var thumbnails := Paths.ThumbnailDir(contentDir, date);
    var made := dirs + Paths.Ancestors(thumbnails);
    Paths.Ancestors(thumbnails) !! files.Keys
    && AllCoversWritable(made, SeriesCoverJobs(contentDir, date, config.komga.url, recent.series), download)
    && AllCoversWritable(made, BookCoverJobs(contentDir, date, config.komga.url, recent.books), download)
    && Paths.IndexPath(contentDir, date) !in made
    && Paths.TemplatePath(config.newsletters.templatesDir) in files
  }

  /** Once the thumbnails directory has been made, the page file can be created unless its path is a directory. */
  lemma IndexCreatable(dirs: set<string>, contentDir: string, date: string)
    requires Paths.Ancestors(Paths.ThumbnailDir(contentDir, date)) <= dirs
    requires Paths.IndexPath(contentDir, date) !in dirs
    ensures CanCreate(dirs, Paths.IndexPath(contentDir, date))
  {
    Paths.WrittenFilesHaveCreatedParents(contentDir, date, "");
  }

  /**
   * Once the thumbnails directory has been made, every cover file of series and issues
   * whose ids are single path segments can be created unless its path is a directory.
   */
  lemma CoversCreatable(dirs: set<string>, contentDir: string, date: string, komgaUrl: string,
                        series: seq<Series>, books: seq<Book>)
    requires Paths.Ancestors(Paths.ThumbnailDir(contentDir, date)) <= dirs
    requires forall s :: s in series ==> '/' !in s.id && Paths.SeriesThumbnailPath(contentDir, date, s.id) !in dirs
    requires forall b :: b in books ==> '/' !in b.id && Paths.BookThumbnailPath(contentDir, date, b.id) !in dirs
    ensures forall k :: 0 <= k < |series| ==> CanCreate(dirs, SeriesCoverJobs(contentDir, date, komgaUrl, series)[k].path)
    ensures forall k :: 0 <= k < |books| ==> CanCreate(dirs, BookCoverJobs(contentDir, date, komgaUrl, books)[k].path)
  {
    forall k | 0 <= k < |series|
      ensures CanCreate(dirs, SeriesCoverJobs(contentDir, date, komgaUrl, series)[k].path)
    {
      Paths.WrittenFilesHaveCreatedParents(contentDir, date, series[k].id);
    }
    forall k | 0 <= k < |books|
      ensures CanCreate(dirs, BookCoverJobs(contentDir, date, komgaUrl, books)[k].path)
    {
      Paths.WrittenFilesHaveCreatedParents(contentDir, date, books[k].id);
    }
  }

  /** Every file the newsletter writes: the series covers, the issue covers and the page. */
  function NewsletterPaths(config: Settings.Config, date: string, recent: Recently): set<string> {
    var contentDir := config.newsletters.contentDir;
    JobPaths(SeriesCoverJobs(contentDir, date, config.komga.url, recent.series))
    + JobPaths(BookCoverJobs(contentDir, date, config.komga.url, recent.books))
    + {Paths.IndexPath(contentDir, date)}
  }

  /** Every cover file holds its download and the page file holds the page. */
  predicate NewsletterWritten(files: map<string, Content>, config: Settings.Config, date: string, recent: Recently,
                              download: Download)
  {
    var contentDir := config.newsletters.contentDir;
    && CoversWritten(files, SeriesCoverJobs(contentDir, date, config.komga.url, recent.series), download)
    && CoversWritten(files, BookCoverJobs(contentDir, date, config.komga.url, recent.books), download)
    && Paths.IndexPath(contentDir, date) in files
    && files[Paths.IndexPath(contentDir, date)] == IndexPage(config, date, recent.series, recent.books)
  }

  /** Both writers completing and then the page being written leave every file of the newsletter in place. */
  lemma CoversThenPage(dirs: set<string>, f0: map<string, Content>, f1: map<string, Content>, f2: map<string, Content>,
                       f3: map<string, Content>, config: Settings.Config, date: string, recent: Recently,
                       download: Download)
    requires var contentDir := config.newsletters.contentDir;
             Written(f1, Pass) == WriteCovers(dirs, f0, SeriesCoverJobs(contentDir, date, config.komga.url, recent.series), download)
    requires var contentDir := config.newsletters.contentDir;
             Written(f2, Pass) == WriteCovers(dirs, f1, BookCoverJobs(contentDir, date, config.komga.url, recent.books), download)
    requires f3 == f2[Paths.IndexPath(config.newsletters.contentDir, date) := IndexPage(config, date, recent.series, recent.books)]
    ensures NewsletterWritten(f3, config, date, recent, download)
  {
    var contentDir := config.newsletters.contentDir;
    var index := Paths.IndexPath(contentDir, date);
    var seriesJobs := SeriesCoverJobs(contentDir, date, config.komga.url, recent.series);
    var bookJobs := BookCoverJobs(contentDir, date, config.komga.url, recent.books);
    WriteCoversPasses(dirs, f0, seriesJobs, download);
    WriteCoversPasses(dirs, f1, bookJobs, download);
    CoverJobsConsistent(contentDir, date, config.komga.url, recent.series, recent.books);
    WriteCoversContents(dirs, f0, seriesJobs, download);
    WriteCoversContents(dirs, f1, bookJobs, download);
    WriteCoversKeepsOthers(dirs, f1, bookJobs, download);
    NewsletterFilesApart(contentDir, date, config.komga.url, recent.series, recent.books);
    CoversWrittenKept(f1, f2, seriesJobs, download, JobPaths(bookJobs));
    CoversWrittenKept(f2, f3, seriesJobs, download, {index});
    CoversWrittenKept(f2, f3, bookJobs, download, {index});
  }

  /**
   * The writing half of `write_komga_recently_added`: create the thumbnails directory
   * (and with it the newsletter's), run `write_series_thumbnails`, then
   * `write_issue_thumbnails`, then `write_newsletter_index`, stopping at the first failure.
   */
  method WriteNewsletterFiles(fs: FileStore, config: Settings.Config, date: string, recent: Recently, download: Download)
    returns (r: JobOutcome)
    requires fs.Valid()
    modifies fs
    ensures fs.Valid()
    ensures r.Completed? || r.Failed? || r == Panicked(TEMPLATE_PANIC)
    ensures var made := Paths.Ancestors(Paths.ThumbnailDir(config.newsletters.contentDir, date));
            made !! old(fs.files).Keys ==> fs.dirs == old(fs.dirs) + made
    ensures var thumbnails := Paths.ThumbnailDir(config.newsletters.contentDir, date);
            !(Paths.Ancestors(thumbnails) !! old(fs.files).Keys) ==>
              r == Failed(Io(BlockedByFile(thumbnails))) && fs.dirs == old(fs.dirs) && fs.files == old(fs.files)
    ensures KeptOutside(old(fs.files), fs.files, NewsletterPaths(config, date, recent))
    ensures r == Completed ==> NewsletterWritten(fs.files, config, date, recent, download)
    ensures WritesPossible(old(fs.dirs), old(fs.files), config, date, recent, download) ==> r == Completed
  {
    var contentDir := config.newsletters.contentDir;
    var made := fs.CreateDirAll(Paths.ThumbnailDir(contentDir, date));
    if made.Fail? {
      return Failed(Io(made.error));
    }
    ghost var touched := NewsletterPaths(config, date, recent);
    var seriesJobs := SeriesCoverJobs(contentDir, date, config.komga.url, recent.series);
    ghost var f0 := fs.files;
    var seriesCovers := WriteCoverFiles(fs, seriesJobs, download);
    ghost var f1 := fs.files;
    WriteCoversPasses(fs.dirs, f0, seriesJobs, download);
    WriteCoversKeepsOthers(fs.dirs, f0, seriesJobs, download);
    KeptOutsideTrans(f0, f1, f1, JobPaths(seriesJobs), {}, touched);
    if seriesCovers.Fail? {
      return Failed(seriesCovers.error);
    }
    var bookJobs := BookCoverJobs(contentDir, date, config.komga.url, recent.books);
    var bookCovers := WriteCoverFiles(fs, bookJobs, download);
    ghost var f2 := fs.files;
    WriteCoversPasses(fs.dirs, f1, bookJobs, download);
    WriteCoversKeepsOthers(fs.dirs, f1, bookJobs, download);
    KeptOutsideTrans(f0, f1, f2, JobPaths(seriesJobs), JobPaths(bookJobs), touched);
    if bookCovers.Fail? {
      return Failed(bookCovers.error);
    }
    if WritesPossible(old(fs.dirs), old(fs.files), config, date, recent, download) {
      IndexCreatable(fs.dirs, contentDir, date);
    }
    r := WriteNewsletterIndex(fs, config, date, recent.series, recent.books);
    KeptOutsideTrans(f0, f2, fs.files, touched, {Paths.IndexPath(contentDir, date)}, touched);
    if r == Completed {
      CoversThenPage(fs.dirs, f0, f1, f2, fs.files, config, date, recent, download);
    }
  }

  /**
   * The posting half of `write_komga_recently_added`: look up the newsletter channel
   * (a failure panics), take the first series for the image (an empty list panics at
   * the `unwrap`), and send the embed stamped `postedAt`.
   */
  method PostNewsletter(d: Chat.Discord, config: Settings.Config, date: string, recent: Recently, postedAt: Timestamp)
    returns (r: JobOutcome)
    modifies d
    ensures d.guilds == old(d.guilds) && d.channels == old(d.channels) && d.nextId == old(d.nextId)
    ensures d.GetDiscordChannelId(config.newsletters.channel).Failure? ==>
              r == Panicked(CHANNEL_PANIC) && d.calls == old(d.calls)
    ensures d.GetDiscordChannelId(config.newsletters.channel).Success? && recent.series == [] ==>
              r == Panicked(UNWRAP_PANIC) && d.calls == old(d.calls)
    ensures d.GetDiscordChannelId(config.newsletters.channel).Success? && recent.series != [] ==>
              r == Completed
              && d.calls == old(d.calls)
                 + [Chat.SendCall(d.GetDiscordChannelId(config.newsletters.channel).value,
                                  NewsletterEmbed(config.newsletters.url, date, recent.series, recent.books, postedAt))]
  {
    var channel := d.GetDiscordChannelId(config.newsletters.channel);
    if channel.Failure? {
      return Panicked(CHANNEL_PANIC);
    }
    if recent.series == [] {
      return Panicked(UNWRAP_PANIC);
    }
    d.SendMessage(channel.value, NewsletterEmbed(config.newsletters.url, date, recent.series, recent.books, postedAt));
    return Completed;
  }

  /**
   * `write_komga_recently_added`: gather, write the files, post. The source reads the
   * clock three times, and the model takes each reading as its own input: `date` is the
   * `%Y-%m-%d` text of the first, `now` the second (the cutoff is computed from it), and
   * `postedAt` the third (the embed's timestamp). Nothing relates them.
   */
  method WriteRecentlyAdded(config: Settings.Config, date: string, now: Timestamp, postedAt: Timestamp,
                            libraries: Result<seq<Library>, ApiError>,
                            seriesPage: Result<Option<seq<Series>>, ApiError>,
                            booksPage: Result<Option<seq<Book>>, ApiError>,
                            download: Download, fs: FileStore, d: Chat.Discord)
    returns (r: JobOutcome)
    requires fs.Valid()
    modifies fs, d
    ensures fs.Valid()
    ensures d.guilds == old(d.guilds) && d.channels == old(d.channels) && d.nextId == old(d.nextId)
    ensures var g := Gather(config.komga, now, libraries, seriesPage, booksPage);
            g.Failure? ==> r == g.error && unchanged(fs) && d.calls == old(d.calls)
    ensures r != Completed ==> d.calls == old(d.calls)
    ensures var g := Gather(config.komga, now, libraries, seriesPage, booksPage);
            g.Success? ==> KeptOutside(old(fs.files), fs.files, NewsletterPaths(config, date, g.value))
    ensures var g := Gather(config.komga, now, libraries, seriesPage, booksPage);
            var made := Paths.Ancestors(Paths.ThumbnailDir(config.newsletters.contentDir, date));
            g.Success? && made !! old(fs.files).Keys ==> fs.dirs == old(fs.dirs) + made
    ensures var g := Gather(config.komga, now, libraries, seriesPage, booksPage);
            r == Completed ==>
              g.Success? && g.value.series != []
              && NewsletterWritten(fs.files, config, date, g.value, download)
              && d.GetDiscordChannelId(config.newsletters.channel).Success?
              && d.calls == old(d.calls)
                 + [Chat.SendCall(d.GetDiscordChannelId(config.newsletters.channel).value,
                                  NewsletterEmbed(config.newsletters.url, date, g.value.series, g.value.books, postedAt))]
    ensures var g := Gather(config.komga, now, libraries, seriesPage, booksPage);
            g.Success? && g.value.series == [] && WritesPossible(old(fs.dirs), old(fs.files), config, date, g.value, download)
            && d.GetDiscordChannelId(config.newsletters.channel).Success? ==>
              r == Panicked(UNWRAP_PANIC) && Paths.IndexPath(config.newsletters.contentDir, date) in fs.files
    ensures var g := Gather(config.komga, now, libraries, seriesPage, booksPage);
            g.Success? && g.value.series != [] && WritesPossible(old(fs.dirs), old(fs.files), config, date, g.value, download)
            && d.GetDiscordChannelId(config.newsletters.channel).Success? ==>
              r == Completed
    ensures var g := Gather(config.komga, now, libraries, seriesPage, booksPage);
            g.Success? && WritesPossible(old(fs.dirs), old(fs.files), config, date, g.value, download)
            && d.GetDiscordChannelId(config.newsletters.channel).Failure? ==>
              r == Panicked(CHANNEL_PANIC)
  {
    var gathered := GatherRecent(config.komga, now, libraries, seriesPage, booksPage);
    if gathered.Failure? {
      return gathered.error;
    }
    r := WriteNewsletterFiles(fs, config, date, gathered.value, download);
    if r != Completed {
      return r;
    }
    r := PostNewsletter(d, config, date, gathered.value, postedAt);
  }
}
