/**
 * Resolution of the configured library names to Komga library ids
 * (`get_library_ids` in main.rs).
 */
module Libraries {
  import opened Wrappers
  import opened Komga

  /**
   * The ids of the libraries whose name is one of `names`, in the order of the server's
   * library list. A name that no library carries contributes nothing.
   */
  function MatchingIds(libraries: seq<Library>, names: seq<string>): (ids: seq<string>)
    ensures |ids| <= |libraries|
    decreases |libraries|
  {
    if libraries == [] then []
    else (if libraries[0].name in names then [libraries[0].id] else []) + MatchingIds(libraries[1..], names)
  }

  /** An id is returned exactly when some library with that id carries one of the names. */
  lemma {:induction false} MatchingIdsMembers(libraries: seq<Library>, names: seq<string>)
    ensures forall id :: id in MatchingIds(libraries, names) <==>
              exists i :: 0 <= i < |libraries| && libraries[i].name in names && libraries[i].id == id
    decreases |libraries|
  {
    if libraries != [] {
      MatchingIdsMembers(libraries[1..], names);
      assert forall i :: 1 <= i < |libraries| ==> libraries[i] == libraries[1..][i - 1];
    }
  }

  /**
   * `get_library_ids`: no configured names means no restriction (`None`) and no request;
   * otherwise the server's library list is fetched, and its failure is passed on.
   */
  function GetLibraryIds(names: Option<seq<string>>, fetched: Result<seq<Library>, ApiError>)
    : (r: Result<Option<seq<string>>, ApiError>)
    ensures names.None? ==> r == Success(None)
    ensures names.Some? && fetched.Failure? ==> r == Failure(fetched.error)
    ensures names.Some? && fetched.Success? ==> r.Success? && r.value.Some?
    ensures names.Some? && fetched.Success? ==>
              forall id :: id in r.value.value <==>
                exists i :: 0 <= i < |fetched.value| && fetched.value[i].name in names.value && fetched.value[i].id == id
  {
    if names.None? then Success(None)
    else
      match fetched
      case Failure(e) => Failure(e)
      case Success(libraries) =>
        MatchingIdsMembers(libraries, names.value);
        Success(Some(MatchingIds(libraries, names.value)))
  }

  /** Resolution keeps library-list order: resolving a concatenation concatenates the results. */
  lemma {:induction false} MatchingIdsAppend(a: seq<Library>, b: seq<Library>, names: seq<string>)
    ensures MatchingIds(a + b, names) == MatchingIds(a, names) + MatchingIds(b, names)
    decreases |a|
  {
    if a == [] {
      assert a + b == b;
    } else {
      var ab := a + b;
      var head := if a[0].name in names then [a[0].id] else [];
      assert ab[0] == a[0] && ab[1..] == a[1..] + b;
      assert MatchingIds(ab, names) == head + MatchingIds(a[1..] + b, names);
      MatchingIdsAppend(a[1..], b, names);
      assert MatchingIds(a, names) == head + MatchingIds(a[1..], names);
    }
  }

  /** Adding names that no library carries changes nothing and raises no error. */
  lemma {:induction false} UnmatchedNamesDropped(libraries: seq<Library>, names: seq<string>, extra: seq<string>)
    requires forall i :: 0 <= i < |libraries| ==> libraries[i].name !in extra
    ensures MatchingIds(libraries, names + extra) == MatchingIds(libraries, names)
    decreases |libraries|
  {
    if libraries != [] {
      assert libraries[0].name in names + extra <==> libraries[0].name in names;
      assert forall i :: 0 <= i < |libraries[1..]| ==> libraries[1..][i] == libraries[i + 1];
      UnmatchedNamesDropped(libraries[1..], names, extra);
    }
  }

  /** When every library is named, every id is returned, in order. */
  lemma {:induction false} AllNamedKeepsAll(libraries: seq<Library>, names: seq<string>)
    requires forall i :: 0 <= i < |libraries| ==> libraries[i].name in names
    ensures |MatchingIds(libraries, names)| == |libraries|
    ensures forall i :: 0 <= i < |libraries| ==> MatchingIds(libraries, names)[i] == libraries[i].id
    decreases |libraries|
  {
    if libraries != [] {
      assert forall i :: 0 <= i < |libraries[1..]| ==> libraries[1..][i] == libraries[i + 1];
      AllNamedKeepsAll(libraries[1..], names);
    }
  }
}
