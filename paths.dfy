/**
 * The file paths and URLs main.rs builds with `format!`, the matching of the two
 * Rocket routes against a request path, and the parent-directory structure that
 * `File::create` depends on.
 *
 * A path is a string; its directories are separated by '/'. The date segment is the
 * `%Y-%m-%d` text of the newsletter date and ids are Komga ids; the lemmas that join
 * writers to routes require them to be single non-empty segments (no '/').
 */
module Paths {
  import opened Wrappers

  const COMPONENT := "/komga/recently_added/"
  const ROUTE_BASE := "recently_added"
  const THUMBNAILS := "thumbnails"
  const INDEX_FILE := "index.html"

  /** A text that stays one path segment: non-empty and without '/'. */
  predicate IsSegment(s: string) {
    s != [] && '/' !in s
  }

  // ---------------------------------------------------------------------
  // Splitting and joining on '/'
  // ---------------------------------------------------------------------

  /** The '/'-separated pieces of `s`; there is always one more piece than separators. */
  function Split(s: string): (parts: seq<string>)
    ensures |parts| >= 1
    ensures forall i :: 0 <= i < |parts| ==> '/' !in parts[i]
    decreases |s|
  {
    if s == [] then [""]
    else
      var rest := Split(s[1..]);
      if s[0] == '/' then [""] + rest
      else [[s[0]] + rest[0]] + rest[1..]
  }

  /** The pieces joined back with '/' between them. */
  function Join(parts: seq<string>): string
    requires |parts| >= 1
    decreases |parts|
  {
    if |parts| == 1 then parts[0] else parts[0] + "/" + Join(parts[1..])
  }

  /** Joining the pieces of a split gives the text back. */
  lemma {:induction false} JoinSplit(s: string)
    ensures Join(Split(s)) == s
    decreases |s|
  {
    if s != [] {
      JoinSplit(s[1..]);
      var rest := Split(s[1..]);
      if s[0] == '/' {
        assert ([""] + rest)[1..] == rest;
        assert s == [s[0]] + s[1..];
      } else {
        var parts := [[s[0]] + rest[0]] + rest[1..];
        if |rest| == 1 {
          assert s == [s[0]] + rest[0];
        } else {
          assert parts[1..] == rest[1..];
          assert Join(rest) == rest[0] + "/" + Join(rest[1..]);
          assert s == [s[0]] + s[1..];
        }
      }
    }
  }

  /** A text without '/' is a single piece. */
  lemma {:induction false} SplitSegment(a: string)
    requires '/' !in a
    ensures Split(a) == [a]
    decreases |a|
  {
    if a != [] {
      assert '/' !in a[1..] by {
        forall i | 0 <= i < |a[1..]| ensures a[1..][i] != '/' {
          assert a[1..][i] == a[i + 1];
        }
      }
      SplitSegment(a[1..]);
      assert [a[0]] + a[1..] == a;
    }
  }

  /** A leading piece without '/' splits off on its own. */
  lemma {:induction false} SplitCons(a: string, b: string)
    requires '/' !in a
    ensures Split(a + "/" + b) == [a] + Split(b)
    decreases |a|
  {
    var s := a + "/" + b;
    if a == [] {
      assert s == ['/'] + b;
      assert s[1..] == b;
    } else {
      assert s[1..] == a[1..] + "/" + b;
      assert '/' !in a[1..] by {
        forall i | 0 <= i < |a[1..]| ensures a[1..][i] != '/' {
          assert a[1..][i] == a[i + 1];
        }
      }
      SplitCons(a[1..], b);
      assert [a[0]] + a[1..] == a;
    }
  }

  // ---------------------------------------------------------------------
  // Parent directories
  // ---------------------------------------------------------------------

  /** The directory part of `p`: everything before its last '/'; None when it has none. */
  function Parent(p: string): (r: Option<string>)
    ensures r.Some? <==> '/' in p
    ensures r.Some? ==> r.value < p
    decreases |p|
  {
    if p == [] then None
    else if p[|p| - 1] == '/' then Some(p[..|p| - 1])
    else
      match Parent(p[..|p| - 1])
      case None =>
        assert p == p[..|p| - 1] + [p[|p| - 1]];
        None
      case Some(d) => Some(d)
  }

  /** The parent of `dir/name` is `dir` whenever `name` contains no '/'. */
  lemma {:induction false} ParentOfChild(dir: string, name: string)
    requires '/' !in name
    ensures Parent(dir + "/" + name) == Some(dir)
    decreases |name|
  {
    var p := dir + "/" + name;
    if name == [] {
      assert p[..|p| - 1] == dir;
    } else {
      var init := name[..|name| - 1];
      assert name[|name| - 1] in name;
      assert '/' !in init by {
        forall i | 0 <= i < |init| ensures init[i] != '/' {
          assert init[i] == name[i];
        }
      }
      ParentOfChild(dir, init);
      assert p[..|p| - 1] == dir + "/" + init;
    }
  }

  /**
   * The directories `create_dir_all(p)` leaves in place: every prefix of `p`
   * that ends just before a '/', and `p` itself.
   */
  function Ancestors(p: string): (dirs: set<string>)
    ensures p != [] ==> p in dirs
    ensures forall d :: d in dirs ==> d != [] && d <= p
  {
    assert p[..|p|] == p;
    set i | 0 < i <= |p| && (i == |p| || p[i] == '/') :: p[..i]
  }

  /** A non-empty `dir` is one of the directories `create_dir_all(dir/rest)` makes. */
  lemma DirIsAncestor(dir: string, rest: string)
    requires dir != []
    ensures dir in Ancestors(dir + "/" + rest)
  {
    var p := dir + "/" + rest;
    assert p[|dir|] == '/' && p[..|dir|] == dir;
  }

  /** No '/' in any of three texts means none in their concatenation. */
  lemma NoSlashConcat(a: string, b: string, c: string)
    requires '/' !in a && '/' !in b && '/' !in c
    ensures '/' !in a + b + c
  {
    var s := a + b + c;
    forall i | 0 <= i < |s| ensures s[i] != '/' {
      if i < |a| { assert s[i] == a[i]; }
      else if i < |a| + |b| { assert s[i] == b[i - |a|]; }
      else { assert s[i] == c[i - |a| - |b|]; }
    }
  }

  // ---------------------------------------------------------------------
  // The files the newsletter writer produces
  // ---------------------------------------------------------------------

  /** `<content_dir>/komga/recently_added/<date>`: one newsletter's directory. */
  function NewsletterDir(contentDir: string, date: string): string {
    contentDir + COMPONENT + date
  }

  /** `thumbnail_path`: the thumbnails directory, created before any file is written. */
  function ThumbnailDir(contentDir: string, date: string): string {
    NewsletterDir(contentDir, date) + "/" + THUMBNAILS
  }

  /** `index_path`: the newsletter page. */
  function IndexPath(contentDir: string, date: string): string {
    NewsletterDir(contentDir, date) + "/" + INDEX_FILE
  }

  /** The cover file names of `write_series_thumbnails` and `write_issue_thumbnails`. */
  function SeriesThumbnailName(id: string): string {
    "series-" + id + ".jpg"
  }

  function BookThumbnailName(id: string): string {
    "book-" + id + ".jpg"
  }

  /** A series cover, as `write_series_thumbnails` names it. */
  function SeriesThumbnailPath(contentDir: string, date: string, id: string): string {
    ThumbnailDir(contentDir, date) + "/" + SeriesThumbnailName(id)
  }

  /** An issue cover, as `write_issue_thumbnails` names it. */
  function BookThumbnailPath(contentDir: string, date: string, id: string): string {
    ThumbnailDir(contentDir, date) + "/" + BookThumbnailName(id)
  }

  /** The template file `write_newsletter_index` registers with Handlebars. */
  function TemplatePath(templatesDir: string): string {
    templatesDir + "/komga/recently_added.html.hbs"
  }

  /** A cover name is one segment when the id is. */
  lemma ThumbnailNamesAreSegments(id: string)
    requires '/' !in id
    ensures IsSegment(SeriesThumbnailName(id)) && IsSegment(BookThumbnailName(id))
  {
    NoSlashConcat("series-", id, ".jpg");
    NoSlashConcat("book-", id, ".jpg");
  }

  /**
   * Every file the job writes has an existing parent once `create_dir_all` has run
   * `create_dir_all` on the thumbnails directory: the page lives in the newsletter's
   * directory and both kinds of cover directly in the thumbnails directory.
   */
  lemma WrittenFilesHaveCreatedParents(contentDir: string, date: string, id: string)
    requires '/' !in id
    ensures Parent(IndexPath(contentDir, date)) == Some(NewsletterDir(contentDir, date))
    ensures Parent(SeriesThumbnailPath(contentDir, date, id)) == Some(ThumbnailDir(contentDir, date))
    ensures Parent(BookThumbnailPath(contentDir, date, id)) == Some(ThumbnailDir(contentDir, date))
    ensures NewsletterDir(contentDir, date) in Ancestors(ThumbnailDir(contentDir, date))
    ensures ThumbnailDir(contentDir, date) in Ancestors(ThumbnailDir(contentDir, date))
  {
    ThumbnailNamesAreSegments(id);
    assert INDEX_FILE[0] == 'i';
    ParentOfChild(NewsletterDir(contentDir, date), INDEX_FILE);
    ParentOfChild(ThumbnailDir(contentDir, date), SeriesThumbnailName(id));
    ParentOfChild(ThumbnailDir(contentDir, date), BookThumbnailName(id));
    assert |NewsletterDir(contentDir, date)| >= |COMPONENT|;
    DirIsAncestor(NewsletterDir(contentDir, date), THUMBNAILS);
  }

  /** Series and issue covers never share a file name, whatever the ids. */
  lemma ThumbnailsDistinct(contentDir: string, date: string, seriesId: string, bookId: string)
    ensures SeriesThumbnailPath(contentDir, date, seriesId) != BookThumbnailPath(contentDir, date, bookId)
  {
    var n := |ThumbnailDir(contentDir, date)| + 1;
    assert SeriesThumbnailPath(contentDir, date, seriesId)[n] == SeriesThumbnailName(seriesId)[0] == 's';
    assert BookThumbnailPath(contentDir, date, bookId)[n] == BookThumbnailName(bookId)[0] == 'b';
  }

  /** The page is never a cover file. */
  lemma IndexIsNotACover(contentDir: string, date: string, id: string)
    ensures IndexPath(contentDir, date) != SeriesThumbnailPath(contentDir, date, id)
    ensures IndexPath(contentDir, date) != BookThumbnailPath(contentDir, date, id)
  {
    var n := |NewsletterDir(contentDir, date)| + 1;
    assert IndexPath(contentDir, date)[n] == INDEX_FILE[0] == 'i';
    assert SeriesThumbnailPath(contentDir, date, id)[n] == THUMBNAILS[0] == 't';
    assert BookThumbnailPath(contentDir, date, id)[n] == THUMBNAILS[0] == 't';
  }

  /** Different series get different cover files, and likewise for issues. */
  lemma ThumbnailPathsInjective(contentDir: string, date: string, a: string, b: string)
    ensures SeriesThumbnailPath(contentDir, date, a) == SeriesThumbnailPath(contentDir, date, b) ==> a == b
    ensures BookThumbnailPath(contentDir, date, a) == BookThumbnailPath(contentDir, date, b) ==> a == b
  {
    var k := |ThumbnailDir(contentDir, date)| + 1;
    if SeriesThumbnailPath(contentDir, date, a) == SeriesThumbnailPath(contentDir, date, b) {
      var na, nb := SeriesThumbnailName(a), SeriesThumbnailName(b);
      assert na == SeriesThumbnailPath(contentDir, date, a)[k..] == nb;
      assert a == na[7..|na| - 4] == nb[7..|nb| - 4] == b;
    }
    if BookThumbnailPath(contentDir, date, a) == BookThumbnailPath(contentDir, date, b) {
      var na, nb := BookThumbnailName(a), BookThumbnailName(b);
      assert na == BookThumbnailPath(contentDir, date, a)[k..] == nb;
      assert a == na[5..|na| - 4] == nb[5..|nb| - 4] == b;
    }
  }

  // ---------------------------------------------------------------------
  // URLs
  // ---------------------------------------------------------------------

  /** The embed's `url`: the public link to one newsletter. */
  function NewsletterUrl(newslettersUrl: string, date: string): string {
    newslettersUrl + "/" + ROUTE_BASE + "/" + date
  }

  /** The embed's `image`: the public link to one series cover of a newsletter. */
  function SeriesImageUrl(newslettersUrl: string, date: string, id: string): string {
    NewsletterUrl(newslettersUrl, date) + "/" + THUMBNAILS + "/" + SeriesThumbnailName(id)
  }

  /** The Komga endpoints serving a series and an issue cover. */
  function SeriesCoverEndpoint(komgaUrl: string, id: string): string {
    komgaUrl + "/api/v1/series/" + id + "/thumbnail"
  }

  function BookCoverEndpoint(komgaUrl: string, id: string): string {
    komgaUrl + "/api/v1/books/" + id + "/thumbnail"
  }

  /** The actuator metric endpoints `update_komga_stats` reads. */
  function SeriesMetricEndpoint(komgaUrl: string): string {
    komgaUrl + "/actuator/metrics/komga.series"
  }

  function BooksMetricEndpoint(komgaUrl: string): string {
    komgaUrl + "/actuator/metrics/komga.books"
  }

  /** The cover endpoints of a series and of an issue never coincide. */
  lemma CoverEndpointsDistinct(komgaUrl: string, seriesId: string, bookId: string)
    ensures SeriesCoverEndpoint(komgaUrl, seriesId) != BookCoverEndpoint(komgaUrl, bookId)
  {
    var n := |komgaUrl| + 8;
    assert SeriesCoverEndpoint(komgaUrl, seriesId)[n] == "/api/v1/series/"[8] == 's';
    assert BookCoverEndpoint(komgaUrl, bookId)[n] == "/api/v1/books/"[8] == 'b';
  }

  /** Each series has its own cover endpoint, and so does each issue. */
  lemma CoverEndpointsInjective(komgaUrl: string, a: string, b: string)
    ensures SeriesCoverEndpoint(komgaUrl, a) == SeriesCoverEndpoint(komgaUrl, b) ==> a == b
    ensures BookCoverEndpoint(komgaUrl, a) == BookCoverEndpoint(komgaUrl, b) ==> a == b
  {
    var k := |komgaUrl|;
    if SeriesCoverEndpoint(komgaUrl, a) == SeriesCoverEndpoint(komgaUrl, b) {
      var ua, ub := SeriesCoverEndpoint(komgaUrl, a), SeriesCoverEndpoint(komgaUrl, b);
      assert a == ua[k + 15..|ua| - 10] == ub[k + 15..|ub| - 10] == b;
    }
    if BookCoverEndpoint(komgaUrl, a) == BookCoverEndpoint(komgaUrl, b) {
      var ua, ub := BookCoverEndpoint(komgaUrl, a), BookCoverEndpoint(komgaUrl, b);
      assert a == ua[k + 14..|ua| - 10] == ub[k + 14..|ub| - 10] == b;
    }
  }

  /** The two metric endpoints differ. */
  lemma MetricEndpointsDistinct(komgaUrl: string)
    ensures SeriesMetricEndpoint(komgaUrl) != BooksMetricEndpoint(komgaUrl)
  {
    var n := |komgaUrl| + 24;
    assert SeriesMetricEndpoint(komgaUrl)[n] == "/actuator/metrics/komga.series"[24] == 's';
    assert BooksMetricEndpoint(komgaUrl)[n] == "/actuator/metrics/komga.books"[24] == 'b';
  }

  // ---------------------------------------------------------------------
  // The file server
  // ---------------------------------------------------------------------

  /** The file `komga_recently_added`, the `/recently_added/<date>` handler, opens. */
  function RouteIndexFile(contentDir: string, date: string): string {
    contentDir + COMPONENT + date + "/" + INDEX_FILE
  }

  /** The file `komga_recently_added_thumbnail`, the `/recently_added/<date>/thumbnails/<thumbnail>` handler, opens. */
  function RouteThumbnailFile(contentDir: string, date: string, thumbnail: string): string {
    contentDir + COMPONENT + date + "/" + THUMBNAILS + "/" + thumbnail
  }

  /**
   * The file served for a request path, the routes being mounted at "/": the path
   * after its leading '/' is split into segments, each dynamic parameter takes one
   * non-empty segment as is, and a request matching neither route is refused (None).
   */
  function ServedFile(contentDir: string, urlPath: string): (r: Option<string>)
    ensures r.Some? ==> |urlPath| > 0 && urlPath[0] == '/'
    ensures r.Some? ==> Split(urlPath[1..])[0] == ROUTE_BASE
    ensures r.Some? ==>
              ((|Split(urlPath[1..])| == 2 && r.value == RouteIndexFile(contentDir, Split(urlPath[1..])[1])) ||
               (|Split(urlPath[1..])| == 4 && Split(urlPath[1..])[2] == THUMBNAILS &&
                r.value == RouteThumbnailFile(contentDir, Split(urlPath[1..])[1], Split(urlPath[1..])[3])))
  {
    if |urlPath| == 0 || urlPath[0] != '/' then None
    else
      var segs := Split(urlPath[1..]);
      if |segs| == 2 && segs[0] == ROUTE_BASE && segs[1] != [] then
        Some(RouteIndexFile(contentDir, segs[1]))
      else if |segs| == 4 && segs[0] == ROUTE_BASE && segs[1] != [] && segs[2] == THUMBNAILS && segs[3] != [] then
        Some(RouteThumbnailFile(contentDir, segs[1], segs[3]))
      else None
  }

  /** `/recently_added/<date>` reaches the index handler with that date. */
  lemma ServedIndexRoute(contentDir: string, date: string)
    requires IsSegment(date)
    ensures ServedFile(contentDir, "/" + ROUTE_BASE + "/" + date) == Some(RouteIndexFile(contentDir, date))
  {
    var path := "/" + ROUTE_BASE + "/" + date;
    assert path[1..] == ROUTE_BASE + "/" + date;
    SplitCons(ROUTE_BASE, date);
    SplitSegment(date);
  }

  /** `/recently_added/<date>/thumbnails/<name>` reaches the thumbnail handler with those segments. */
  lemma ServedThumbnailRoute(contentDir: string, date: string, name: string)
    requires IsSegment(date) && IsSegment(name)
    ensures ServedFile(contentDir, "/" + ROUTE_BASE + "/" + date + "/" + THUMBNAILS + "/" + name)
            == Some(RouteThumbnailFile(contentDir, date, name))
  {
    var path := "/" + ROUTE_BASE + "/" + date + "/" + THUMBNAILS + "/" + name;
    assert path[1..] == ROUTE_BASE + "/" + (date + "/" + (THUMBNAILS + "/" + name));
    SplitSegment(name);
    SplitCons(THUMBNAILS, name);
    SplitCons(date, THUMBNAILS + "/" + name);
    SplitCons(ROUTE_BASE, date + "/" + (THUMBNAILS + "/" + name));
  }

  /** The path part of a newsletter link is served as exactly the page the writer produced. */
  lemma ServedIndex(contentDir: string, newslettersUrl: string, date: string)
    requires IsSegment(date)
    ensures ServedFile(contentDir, NewsletterUrl(newslettersUrl, date)[|newslettersUrl|..])
            == Some(IndexPath(contentDir, date))
  {
    assert NewsletterUrl(newslettersUrl, date)[|newslettersUrl|..] == "/" + ROUTE_BASE + "/" + date;
    ServedIndexRoute(contentDir, date);
    assert RouteIndexFile(contentDir, date) == IndexPath(contentDir, date);
  }

  /** The path part of the embed image link is served as exactly the series cover the writer produced. */
  lemma ServedSeriesImage(contentDir: string, newslettersUrl: string, date: string, id: string)
    requires IsSegment(date) && '/' !in id
    ensures ServedFile(contentDir, SeriesImageUrl(newslettersUrl, date, id)[|newslettersUrl|..])
            == Some(SeriesThumbnailPath(contentDir, date, id))
  {
    var name := SeriesThumbnailName(id);
    ThumbnailNamesAreSegments(id);
    assert SeriesImageUrl(newslettersUrl, date, id)[|newslettersUrl|..]
        == "/" + ROUTE_BASE + "/" + date + "/" + THUMBNAILS + "/" + name;
    ServedThumbnailRoute(contentDir, date, name);
    assert RouteThumbnailFile(contentDir, date, name) == SeriesThumbnailPath(contentDir, date, id);
  }

  /** Every issue cover the writer produces is reachable through the thumbnail route. */
  lemma ServedBookThumbnail(contentDir: string, date: string, id: string)
    requires IsSegment(date) && '/' !in id
    ensures ServedFile(contentDir, "/" + ROUTE_BASE + "/" + date + "/" + THUMBNAILS + "/" + BookThumbnailName(id))
            == Some(BookThumbnailPath(contentDir, date, id))
  {
    ThumbnailNamesAreSegments(id);
    ServedThumbnailRoute(contentDir, date, BookThumbnailName(id));
    assert RouteThumbnailFile(contentDir, date, BookThumbnailName(id)) == BookThumbnailPath(contentDir, date, id);
  }

  /** The handlers insert the date as given: a ".." segment reaches outside the newsletter tree. */
  lemma RoutesDoNotSanitise(contentDir: string)
    ensures ServedFile(contentDir, "/recently_added/..") == Some(contentDir + "/komga/recently_added/../index.html")
  {
    UpDirLiterals(contentDir);
    ServedIndexRoute(contentDir, "..");
  }

  /** The spelled-out request and file paths for the date "..". */
  lemma UpDirLiterals(contentDir: string)
    ensures IsSegment("..")
    ensures "/" + ROUTE_BASE + "/" + ".." == "/recently_added/.."
    ensures RouteIndexFile(contentDir, "..") == contentDir + "/komga/recently_added/../index.html"
  {
    assert '/' !in "..";
  }
}
