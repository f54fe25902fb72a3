/** Header resolution of the Google Sheets repository
    (adapters/google_sheets_repository.py): the positional column map, the
    expected and required column names, and the header row turned into a
    name-to-index map, a positional fallback or a schema error. */
module SheetHeader {
  import opened Results
  import opened Strings

  type HeaderMap = map<string, nat>

  /** `COLUMN_MAP`: the positional layout used when the header is unusable. */
  const ColumnMap: HeaderMap := map[
    "task_id" := 0, "status" := 1, "title" := 2, "video_file_path" := 3,
    "description" := 4, "tags" := 5, "category_id" := 6, "thumbnail_path" := 7,
    "publish_at" := 8, "privacy_status" := 9, "youtube_video_id" := 10,
    "error_message" := 11, "attempts" := 12, "last_attempt_at" := 13,
    "created_at" := 14, "updated_at" := 15]

  /** `EXPECTED_HEADERS`. */
  const ExpectedHeaders: set<string> := {
    "task_id", "status", "title", "video_file_path", "description", "tags",
    "category_id", "thumbnail_path", "publish_at", "privacy_status",
    "youtube_video_id", "error_message", "attempts", "last_attempt_at",
    "created_at", "updated_at"}

  /** `REQUIRED_COLUMNS`. */
  const RequiredColumns: set<string> := {
    "task_id", "video_file_path", "title", "description", "publish_at", "status",
    "youtube_video_id", "error_message"}

  /** The expected names in ascending code-point order; `sorted` of any set
      of expected names keeps exactly its members in this order. */
  const SortedExpected: seq<string> := [
    "attempts", "category_id", "created_at", "description", "error_message",
    "last_attempt_at", "privacy_status", "publish_at", "status", "tags",
    "task_id", "thumbnail_path", "title", "updated_at", "video_file_path",
    "youtube_video_id"]

  /** The columns the repository reads and writes, each by its header name. */
  datatype Column =
    | TaskIdColumn | StatusColumn | TitleColumn | VideoFilePathColumn
    | DescriptionColumn | TagsColumn | CategoryIdColumn | ThumbnailPathColumn
    | PublishAtColumn | PrivacyStatusColumn | YoutubeVideoIdColumn | ErrorMessageColumn
    | AttemptsColumn | LastAttemptAtColumn | CreatedAtColumn | UpdatedAtColumn

  function ColumnName(c: Column): string {
    match c
    case TaskIdColumn => "task_id"
    case StatusColumn => "status"
    case TitleColumn => "title"
    case VideoFilePathColumn => "video_file_path"
    case DescriptionColumn => "description"
    case TagsColumn => "tags"
    case CategoryIdColumn => "category_id"
    case ThumbnailPathColumn => "thumbnail_path"
    case PublishAtColumn => "publish_at"
    case PrivacyStatusColumn => "privacy_status"
    case YoutubeVideoIdColumn => "youtube_video_id"
    case ErrorMessageColumn => "error_message"
    case AttemptsColumn => "attempts"
    case LastAttemptAtColumn => "last_attempt_at"
    case CreatedAtColumn => "created_at"
    case UpdatedAtColumn => "updated_at"
  }

  /** The column's position in COLUMN_MAP. */
  function Position(c: Column): nat {
    match c
    case TaskIdColumn => 0
    case StatusColumn => 1
    case TitleColumn => 2
    case VideoFilePathColumn => 3
    case DescriptionColumn => 4
    case TagsColumn => 5
    case CategoryIdColumn => 6
    case ThumbnailPathColumn => 7
    case PublishAtColumn => 8
    case PrivacyStatusColumn => 9
    case YoutubeVideoIdColumn => 10
    case ErrorMessageColumn => 11
    case AttemptsColumn => 12
    case LastAttemptAtColumn => 13
    case CreatedAtColumn => 14
    case UpdatedAtColumn => 15
  }

  /** Every column name is an expected header, and COLUMN_MAP holds its
      position. */
  lemma ColumnMapPosition(c: Column)
    ensures ColumnName(c) in ExpectedHeaders
    ensures ColumnName(c) in ColumnMap && ColumnMap[ColumnName(c)] == Position(c)
  {
  }

  /** Every column name is a lower-case identifier, so stripping and
      lower-casing it, as the lookups do, gives the name itself
      (IdentifierNormal). */
  lemma ColumnNameIdentifier(c: Column)
    ensures Identifier(ColumnName(c))
  {
    match c
    case TaskIdColumn => IdentifierGroup1();
    case StatusColumn => IdentifierGroup1();
    case TitleColumn => IdentifierGroup1();
    case VideoFilePathColumn => IdentifierGroup1();
    case DescriptionColumn => IdentifierGroup2();
    case TagsColumn => IdentifierGroup2();
    case CategoryIdColumn => IdentifierGroup2();
    case ThumbnailPathColumn => IdentifierGroup2();
    case PublishAtColumn => IdentifierGroup3();
    case PrivacyStatusColumn => IdentifierGroup3();
    case YoutubeVideoIdColumn => IdentifierGroup3();
    case ErrorMessageColumn => IdentifierGroup3();
    case AttemptsColumn => IdentifierGroup4();
    case LastAttemptAtColumn => IdentifierGroup4();
    case CreatedAtColumn => IdentifierGroup4();
    case UpdatedAtColumn => IdentifierGroup4();
  }

  lemma IdentifierGroup1()
    ensures Identifier("task_id") && Identifier("status") && Identifier("title") && Identifier("video_file_path")
  {
  }

  lemma IdentifierGroup2()
    ensures Identifier("description") && Identifier("tags") && Identifier("category_id") && Identifier("thumbnail_path")
  {
  }

  lemma IdentifierGroup3()
    ensures Identifier("publish_at") && Identifier("privacy_status") && Identifier("youtube_video_id") && Identifier("error_message")
  {
  }

  lemma IdentifierGroup4()
    ensures Identifier("attempts") && Identifier("last_attempt_at") && Identifier("created_at") && Identifier("updated_at")
  {
  }

  /** Distinct columns have distinct names and distinct positions. */
  lemma ColumnsDistinct(c: Column, d: Column)
    ensures ColumnName(c) == ColumnName(d) <==> c == d
    ensures Position(c) == Position(d) <==> c == d
  {
  }

  /** The positional map covers exactly the expected names, and every
      required name is expected. */
  lemma ColumnLayout()
    ensures ColumnMap.Keys == ExpectedHeaders
    ensures RequiredColumns <= ExpectedHeaders
  {
  }

  /** Python's string order: lexicographic on code points. */
  predicate Precedes(a: string, b: string) {
    if a == [] then b != []
    else b != [] && (a[0] < b[0] || (a[0] == b[0] && Precedes(a[1..], b[1..])))
  }

  lemma {:induction false} PrecedesTransitive(a: string, b: string, c: string)
    requires Precedes(a, b) && Precedes(b, c)
    ensures Precedes(a, c)
  {
    if a != [] && a[0] == b[0] && b[0] == c[0] {
      PrecedesTransitive(a[1..], b[1..], c[1..]);
    }
  }

  lemma {:induction false} PrecedesIrreflexive(a: string)
    ensures !Precedes(a, a)
  {
    if a != [] {
      PrecedesIrreflexive(a[1..]);
    }
  }

  predicate Ascending(xs: seq<string>) {
    forall i, j :: 0 <= i < j < |xs| ==> Precedes(xs[i], xs[j])
  }

  lemma {:induction false} AscendingFromAdjacent(xs: seq<string>)
    requires forall i :: 0 <= i < |xs| - 1 ==> Precedes(xs[i], xs[i + 1])
    ensures Ascending(xs)
  {
    if |xs| > 1 {
      AscendingFromAdjacent(xs[1..]);
      forall j | 1 < j < |xs| ensures Precedes(xs[0], xs[j]) {
        assert Precedes(xs[1..][0], xs[1..][j - 1]);
        PrecedesTransitive(xs[0], xs[1], xs[j]);
      }
    }
  }

  lemma SortedExpectedAscending()
    ensures Ascending(SortedExpected)
    ensures forall x :: x in SortedExpected <==> x in ExpectedHeaders
  {
    assert Precedes("privacy_status", "publish_at") by {
      assert Precedes("rivacy_status", "ublish_at");
    }
    assert Precedes("tags", "task_id") by {
      assert Precedes("gs", "sk_id");
      assert Precedes("ags", "ask_id");
    }
    assert Precedes("task_id", "thumbnail_path");
    assert Precedes("thumbnail_path", "title");
    AscendingFromAdjacent(SortedExpected);
  }

  /** The members of `xs` that lie in `s`, in the order of `xs`. */
  function Keep(xs: seq<string>, s: set<string>): (r: seq<string>)
    ensures forall x :: x in r <==> x in xs && x in s
  {
    if xs == [] then []
    else (if xs[0] in s then [xs[0]] else []) + Keep(xs[1..], s)
  }

  lemma {:induction false} KeepAscending(xs: seq<string>, s: set<string>)
    requires Ascending(xs)
    ensures Ascending(Keep(xs, s))
  {
    if xs != [] {
      KeepAscending(xs[1..], s);
      var rest := Keep(xs[1..], s);
      if xs[0] in s {
        forall j | 0 <= j < |rest| ensures Precedes(xs[0], rest[j]) {
          assert rest[j] in xs[1..];
        }
        var r := [xs[0]] + rest;
        forall i, j | 0 <= i < j < |r| ensures Precedes(r[i], r[j]) {
          if i > 0 {
            assert r[i] == rest[i - 1] && r[j] == rest[j - 1];
          }
        }
      }
    }
  }

  /** `sorted(s)` for a set of expected names. */
  function SortedNames(s: set<string>): (r: seq<string>)
    requires s <= ExpectedHeaders
    ensures forall x :: x in r <==> x in s
    ensures Ascending(r)
  {
    SortedExpectedAscending();
    KeepAscending(SortedExpected, s);
    Keep(SortedExpected, s)
  }

  /** `cell.strip().lower()`. */
  function Normalize(cell: string): string {
    Lower(Strip(cell))
  }

  /** The header cells, each normalised. */
  function Names(header: seq<string>): (r: seq<string>)
    ensures |r| == |header|
  {
    seq(|header|, i requires 0 <= i < |header| => Normalize(header[i]))
  }

  /** The dict filled by the loop of `_build_header_map`, over the
      normalised cells: each non-blank name keyed to its index, a later
      cell overriding an earlier one with the same name. */
  function IndexMap(names: seq<string>): HeaderMap
  {
    if names == [] then map[]
    else
      var m := IndexMap(names[..|names| - 1]);
      var name := names[|names| - 1];
      if name != "" then m[name := |names| - 1] else m
  }

  function RawHeaderMap(header: seq<string>): HeaderMap {
    IndexMap(Names(header))
  }

  /** Position `p` holds `name` and no later position does. */
  predicate LastNamed(names: seq<string>, name: string, p: nat) {
    && p < |names|
    && names[p] == name
    && forall j :: p < j < |names| ==> names[j] != name
  }

  /** A name is a key exactly when it is non-blank and some cell carries
      it, and it maps to the last position carrying it. */
  lemma {:induction false} IndexMapKey(names: seq<string>, k: string)
    ensures k in IndexMap(names) <==> k != "" && k in names
    ensures k in IndexMap(names) ==> LastNamed(names, k, IndexMap(names)[k])
  {
    if names != [] {
      var n := |names| - 1;
      var init := names[..n];
      IndexMapKey(init, k);
      assert names == init + [names[n]];
      if names[n] != k && k in IndexMap(init) {
        var p := IndexMap(init)[k];
        assert names[p] == init[p];
        forall j | p < j < |names| ensures names[j] != k {
          if j < n {
            assert names[j] == init[j];
          }
        }
      }
    }
  }

  /** Two different names of the map sit at different positions. */
  lemma IndexMapDistinct(names: seq<string>, a: string, b: string)
    requires a != b && a in IndexMap(names) && b in IndexMap(names)
    ensures IndexMap(names)[a] != IndexMap(names)[b]
  {
    IndexMapKey(names, a);
    IndexMapKey(names, b);
  }

  /** What the header row resolves to. */
  datatype HeaderOutcome =
    | Positional
    | ByName(columns: HeaderMap)
    | MissingRequired(missing: set<string>, found: set<string>)
  {
    /** The text of the schema error. */
    function Message(): string
      requires MissingRequired?
    {
      "Missing required columns: " + ListRepr(SortedNames(missing * ExpectedHeaders))
        + "; found columns: " + ListRepr(SortedNames(found * ExpectedHeaders))
    }

    /** The header map the reads use: `None` stands for COLUMN_MAP. */
    function Map(): Option<HeaderMap> {
      if ByName? then Some(columns) else None
    }
  }

  /** `_build_header_map` as a value. */
  function ResolveHeader(header: seq<string>): (r: HeaderOutcome)
    ensures r.ByName? ==> RequiredColumns <= r.columns.Keys
    ensures r.MissingRequired? ==>
      r.missing != {} && r.missing <= RequiredColumns && r.found != {} && r.found <= ExpectedHeaders
  {
    if header == [] then Positional
    else
      var m := RawHeaderMap(header);
      var found := m.Keys * ExpectedHeaders;
      if found == {} then Positional
      else
        var missing := RequiredColumns - m.Keys;
        if missing != {} then MissingRequired(missing, found)
        else
          assert forall x :: x in RequiredColumns ==> x in missing || x in m.Keys;
          ByName(m)
  }

  /** The keys of the header map, described through the normalised cells. */
  lemma HeaderKeys(header: seq<string>)
    ensures forall k :: k in RawHeaderMap(header) <==> k != "" && k in Names(header)
    ensures forall k :: k in RawHeaderMap(header) ==> LastNamed(Names(header), k, RawHeaderMap(header)[k])
  {
    forall k ensures (k in RawHeaderMap(header) <==> k != "" && k in Names(header))
      && (k in RawHeaderMap(header) ==> LastNamed(Names(header), k, RawHeaderMap(header)[k]))
    {
      IndexMapKey(Names(header), k);
    }
  }

  lemma ExpectedNonBlank()
    ensures "" !in ExpectedHeaders
  {
  }

  /** The positional fallback is taken exactly when no normalised header
      cell names an expected column (an empty header included). */
  lemma PositionalWhenUnrecognised(header: seq<string>)
    ensures ResolveHeader(header).Positional? <==>
      forall n :: n in ExpectedHeaders ==> n !in Names(header)
  {
    HeaderKeys(header);
    ExpectedNonBlank();
    var m := RawHeaderMap(header);
    var names := Names(header);
    var found := m.Keys * ExpectedHeaders;
    assert forall n :: n in found <==> n in ExpectedHeaders && n in names;
    if header == [] {
      assert names == [];
    } else if found == {} {
      assert ResolveHeader(header) == Positional;
      forall n | n in ExpectedHeaders ensures n !in names {
        assert n !in found;
      }
    } else {
      var n :| n in found;
      assert n in ExpectedHeaders && n in names;
    }
  }

  /** The schema error lists the required names no cell carries and the
      expected names some cell carries; both lists are non-empty. */
  lemma MissingWhenIncomplete(header: seq<string>)
    requires ResolveHeader(header).MissingRequired?
    ensures var o := ResolveHeader(header);
      && (forall n :: n in o.missing <==> n in RequiredColumns && n !in Names(header))
      && (forall n :: n in o.found <==> n in ExpectedHeaders && n in Names(header))
      && o.missing != {} && o.found != {}
  {
    HeaderKeys(header);
    ExpectedNonBlank();
  }

  /** A usable header maps every non-blank name to the last position
      carrying it, and covers every required column. */
  lemma ByNameWhenComplete(header: seq<string>)
    requires ResolveHeader(header).ByName?
    ensures var m := ResolveHeader(header).columns;
      && (forall n :: n in RequiredColumns ==> n in m)
      && (forall k :: k in m <==> k != "" && k in Names(header))
      && (forall k :: k in m ==> LastNamed(Names(header), k, m[k]))
  {
    HeaderKeys(header);
    var m := RawHeaderMap(header);
    assert ResolveHeader(header) == ByName(m);
    assert RequiredColumns - m.Keys == {};
    forall n | n in RequiredColumns ensures n in m {
      assert n !in RequiredColumns - m.Keys;
    }
  }

  /** The schema error names its sorted missing and found columns. */
  lemma MissingMessage(header: seq<string>)
    requires ResolveHeader(header).MissingRequired?
    ensures var o := ResolveHeader(header);
      o.Message() == "Missing required columns: " + ListRepr(SortedNames(o.missing))
        + "; found columns: " + ListRepr(SortedNames(o.found))
  {
    var o := ResolveHeader(header);
    assert o.missing * ExpectedHeaders == o.missing;
    assert o.found * ExpectedHeaders == o.found;
  }

  /** `_build_header_map`: the loop over the header cells, then the two
      checks. */
  method BuildHeaderMap(header: seq<string>) returns (r: HeaderOutcome)
    ensures r == ResolveHeader(header)
  {
    if |header| == 0 {
      return Positional;
    }
    var m: HeaderMap := map[];
    var idx := 0;
    ghost var names := Names(header);
    while idx < |header|
      invariant 0 <= idx <= |header|
      invariant m == IndexMap(names[..idx])
    {
      var normalized := Normalize(header[idx]);
      if normalized != "" {
        m := m[normalized := idx];
      }
      assert names[..idx + 1][..idx] == names[..idx];
      idx := idx + 1;
    }
    assert names[..idx] == names;
    var found := m.Keys * ExpectedHeaders;
    if found == {} {
      return Positional;
    }
    var missing := RequiredColumns - m.Keys;
    if missing != {} {
      return MissingRequired(missing, found);
    }
    return ByName(m);
  }
}
