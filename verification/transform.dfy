/** `process_notion_item`: maps one Notion page object to the flat row upserted
    into Supabase. Which columns are read depends on the destination table. */
module Transform {
  import opened Wrappers
  import opened Json

  /** A destination row: a Python dict from column name to value. */
  type Row = map<string, Json>

  /** The one table name that selects the extra paper columns. */
  const PapersTable: string := "papers"

  const TitlePath: seq<Step> := [Key("properties"), Key("Title"), Key("title"), At(0), Key("plain_text")]
  const UrlPath: seq<Step> := [Key("properties"), Key("URL"), Key("url")]
  const CreatedPath: seq<Step> := [Key("created_time")]
  const DatePath: seq<Step> := [Key("properties"), Key("Date"), Key("date"), Key("start")]
  const AuthorsPath: seq<Step> := [Key("properties"), Key("Authors"), Key("rich_text"), At(0), Key("plain_text")]

  /** The rich-text arrays whose first segment supplies the title and the authors. */
  const TitleArrayPath: seq<Step> := [Key("properties"), Key("Title"), Key("title")]
  const AuthorsArrayPath: seq<Step> := [Key("properties"), Key("Authors"), Key("rich_text")]

  const BaseColumns: set<string> := {"title", "url", "notion_timestamp"}
  const PaperColumns: set<string> := BaseColumns + {"date", "authors"}

  /** The three base columns can all be read from `item`. */
  predicate BaseReadable(item: Json) {
    Follow(item, TitlePath).Ok? && Follow(item, UrlPath).Ok? && Follow(item, CreatedPath).Ok?
  }

  /** The two paper columns can both be read from `item`. */
  predicate PaperReadable(item: Json) {
    Follow(item, DatePath).Ok? && Follow(item, AuthorsPath).Ok?
  }

  /** Builds the row; the dict literal's values are evaluated title, url,
      created_time, and the paper columns after that, so the first subscript
      chain that fails decides the exception. */
  function ProcessItem(item: Json, table: string): (r: Result<Row, Error>)
    ensures r.Ok? <==> BaseReadable(item) && (table == PapersTable ==> PaperReadable(item))
    ensures r.Ok? ==> r.value.Keys == if table == PapersTable then PaperColumns else BaseColumns
    ensures r.Ok? ==>
              && r.value["title"] == Follow(item, TitlePath).value
              && r.value["url"] == Follow(item, UrlPath).value
              && r.value["notion_timestamp"] == Follow(item, CreatedPath).value
    ensures r.Ok? && table == PapersTable ==>
              && r.value["date"] == Follow(item, DatePath).value
              && r.value["authors"] == Follow(item, AuthorsPath).value
    ensures Follow(item, TitlePath).Err? ==> r == Err(Follow(item, TitlePath).error)
    ensures Follow(item, TitlePath).Ok? && Follow(item, UrlPath).Err? ==> r == Err(Follow(item, UrlPath).error)
    ensures Follow(item, TitlePath).Ok? && Follow(item, UrlPath).Ok? && Follow(item, CreatedPath).Err? ==>
              r == Err(Follow(item, CreatedPath).error)
    ensures BaseReadable(item) && table == PapersTable && Follow(item, DatePath).Err? ==>
              r == Err(Follow(item, DatePath).error)
    ensures BaseReadable(item) && table == PapersTable && Follow(item, DatePath).Ok?
            && Follow(item, AuthorsPath).Err? ==>
              r == Err(Follow(item, AuthorsPath).error)
  {
    var title :- Follow(item, TitlePath);
    var url :- Follow(item, UrlPath);
    var created :- Follow(item, CreatedPath);
    var row := map["title" := title, "url" := url, "notion_timestamp" := created];
    if table == PapersTable then
      var date :- Follow(item, DatePath);
      var authors :- Follow(item, AuthorsPath);
      Ok(row["date" := date]["authors" := authors])
    else
      Ok(row)
  }

  /** An empty title array fails the transform with IndexError, whatever
      else the item holds and whatever the table. */
  lemma EmptyTitleFails(item: Json, table: string)
    requires Follow(item, TitleArrayPath) == Ok(Arr([]))
    ensures ProcessItem(item, table) == Err(IndexError)
  {
    assert TitlePath == TitleArrayPath + [At(0), Key("plain_text")];
    FollowAppend(item, TitleArrayPath, [At(0), Key("plain_text")]);
  }

  /** For papers, a readable item whose authors array is empty fails the
      transform with IndexError. */
  lemma EmptyAuthorsFails(item: Json)
    requires BaseReadable(item) && Follow(item, DatePath).Ok?
    requires Follow(item, AuthorsArrayPath) == Ok(Arr([]))
    ensures ProcessItem(item, PapersTable) == Err(IndexError)
  {
    assert AuthorsPath == AuthorsArrayPath + [At(0), Key("plain_text")];
    FollowAppend(item, AuthorsArrayPath, [At(0), Key("plain_text")]);
  }

  /** A Notion page as the database schema describes it, independent of its
      JSON encoding: a title and an author list as rich-text segments, a URL
      property that may be empty, a date property that may be unset. */
  datatype NotionPage = NotionPage(
    id: string,
    createdTime: string,
    title: seq<string>,
    url: Option<string>,
    date: Option<string>,
    authors: seq<string>)

  function OptionalString(s: Option<string>): Json {
    match s
    case None => Null
    case Some(v) => Str(v)
  }

  function RichText(segments: seq<string>): (r: Json)
    ensures r.Arr? && |r.elems| == |segments|
  {
    Arr(seq(|segments|, i requires 0 <= i < |segments| => Obj(map["plain_text" := Str(segments[i])])))
  }

  /** A minimal JSON page object for `p`: just the keys the transform reads.
      The API's other keys (`object`, `parent`, property `id`s and `type`s,
      segment annotations, a date's `end`) are never visited by a subscript
      chain here. */
  function Encode(p: NotionPage): Json {
    Obj(map[
      "id" := Str(p.id),
      "created_time" := Str(p.createdTime),
      "properties" := EncodedProperties(p)])
  }

  /** The row every page yields: the first title segment, the URL (None when
      unset), the creation time, and for papers the date start and the first
      author segment. */
  function ExpectedRow(p: NotionPage, table: string): Row
    requires p.title != []
    requires table == PapersTable ==> p.date.Some? && p.authors != []
  {
    var row := map["title" := Str(p.title[0]), "url" := OptionalString(p.url),
                   "notion_timestamp" := Str(p.createdTime)];
    if table == PapersTable then row["date" := Str(p.date.value)]["authors" := Str(p.authors[0])]
    else row
  }

  function DateValue(d: Option<string>): Json {
    match d
    case None => Null
    case Some(v) => Obj(map["start" := Str(v)])
  }

  /** The `properties` object of an encoded page. */
  function EncodedProperties(p: NotionPage): Json {
    Obj(map[
      "Title" := Obj(map["title" := RichText(p.title)]),
      "URL" := Obj(map["url" := OptionalString(p.url)]),
      "Date" := Obj(map["date" := DateValue(p.date)]),
      "Authors" := Obj(map["rich_text" := RichText(p.authors)])])
  }

  /** Following `[Key(a), Key(b)]` from an object two levels deep. */
  lemma FollowTwoKeys(v: Json, a: string, b: string, w: Json)
    requires v.Obj? && a in v.fields && v.fields[a].Obj? && b in v.fields[a].fields
    requires w == v.fields[a].fields[b]
    ensures Follow(v, [Key(a), Key(b)]) == Ok(w)
  {
    assert [Key(a), Key(b)][1..] == [Key(b)];
    assert Follow(v.fields[a], [Key(b)]) == Follow(w, []);
  }

  /** The `properties` object of an encoded page, one subscript down. */
  lemma EncodedPropertiesAt(p: NotionPage)
    ensures Follow(Encode(p), [Key("properties")]) == Ok(EncodedProperties(p))
  {
    assert [Key("properties")][1..] == [];
  }

  /** The first segment's `plain_text` of a non-empty rich-text array, and
      IndexError for an empty one. */
  lemma FirstSegment(segments: seq<string>, prefix: seq<Step>, item: Json)
    requires Follow(item, prefix) == Ok(RichText(segments))
    ensures Follow(item, prefix + [At(0), Key("plain_text")])
         == if segments == [] then Err(IndexError) else Ok(Str(segments[0]))
  {
    FollowAppend(item, prefix, [At(0), Key("plain_text")]);
    if segments != [] {
      var seg := RichText(segments).elems[0];
      assert seg == Obj(map["plain_text" := Str(segments[0])]);
      assert Follow(RichText(segments), [At(0), Key("plain_text")]) == Follow(seg, [Key("plain_text")]);
    }
  }

  /** The title subscript chain on an encoded page. */
  lemma EncodedTitle(p: NotionPage)
    ensures Follow(Encode(p), TitlePath) == if p.title == [] then Err(IndexError) else Ok(Str(p.title[0]))
  {
    var item := Encode(p);
    EncodedPropertiesAt(p);
    FollowTwoKeys(EncodedProperties(p), "Title", "title", RichText(p.title));
    FollowAppend(item, [Key("properties")], [Key("Title"), Key("title")]);
    assert TitleArrayPath == [Key("properties")] + [Key("Title"), Key("title")];
    FirstSegment(p.title, TitleArrayPath, item);
    assert TitlePath == TitleArrayPath + [At(0), Key("plain_text")];
  }

  /** The URL and creation-time subscript chains on an encoded page. */
  lemma EncodedUrlAndCreated(p: NotionPage)
    ensures Follow(Encode(p), UrlPath) == Ok(OptionalString(p.url))
    ensures Follow(Encode(p), CreatedPath) == Ok(Str(p.createdTime))
  {
    var item := Encode(p);
    EncodedPropertiesAt(p);
    FollowTwoKeys(EncodedProperties(p), "URL", "url", OptionalString(p.url));
    FollowAppend(item, [Key("properties")], [Key("URL"), Key("url")]);
    assert UrlPath == [Key("properties")] + [Key("URL"), Key("url")];
    assert CreatedPath[1..] == [];
  }

  /** The date subscript chain on an encoded page: `None["start"]` raises
      TypeError when the date is unset. */
  lemma EncodedDate(p: NotionPage)
    ensures Follow(Encode(p), DatePath) == if p.date.None? then Err(TypeError) else Ok(Str(p.date.value))
  {
    var item := Encode(p);
    var datePrefix := [Key("properties"), Key("Date"), Key("date")];
    EncodedPropertiesAt(p);
    FollowTwoKeys(EncodedProperties(p), "Date", "date", DateValue(p.date));
    FollowAppend(item, [Key("properties")], [Key("Date"), Key("date")]);
    assert datePrefix == [Key("properties")] + [Key("Date"), Key("date")];
    assert DatePath == datePrefix + [Key("start")];
    FollowAppend(item, datePrefix, [Key("start")]);
    if p.date.Some? {
      assert Follow(DateValue(p.date), [Key("start")]) == Ok(Str(p.date.value));
    }
  }

  /** The authors subscript chain on an encoded page. */
  lemma EncodedAuthors(p: NotionPage)
    ensures Follow(Encode(p), AuthorsPath) == if p.authors == [] then Err(IndexError) else Ok(Str(p.authors[0]))
  {
    var item := Encode(p);
    EncodedPropertiesAt(p);
    FollowTwoKeys(EncodedProperties(p), "Authors", "rich_text", RichText(p.authors));
    FollowAppend(item, [Key("properties")], [Key("Authors"), Key("rich_text")]);
    assert AuthorsArrayPath == [Key("properties")] + [Key("Authors"), Key("rich_text")];
    FirstSegment(p.authors, AuthorsArrayPath, item);
    assert AuthorsPath == AuthorsArrayPath + [At(0), Key("plain_text")];
  }

  /** The transform on every encoded page: it succeeds exactly when the title
      has a segment and, for papers, the date is set and there is an author
      segment; an unset paper date raises TypeError (`None["start"]`), an
      empty segment list raises IndexError. */
  lemma ProcessEncodedPage(p: NotionPage, table: string)
    ensures p.title == [] ==> ProcessItem(Encode(p), table) == Err(IndexError)
    ensures p.title != [] && table != PapersTable ==>
              ProcessItem(Encode(p), table) == Ok(ExpectedRow(p, table))
    ensures p.title != [] && table == PapersTable && p.date.None? ==>
              ProcessItem(Encode(p), table) == Err(TypeError)
    ensures p.title != [] && table == PapersTable && p.date.Some? && p.authors == [] ==>
              ProcessItem(Encode(p), table) == Err(IndexError)
    ensures p.title != [] && table == PapersTable && p.date.Some? && p.authors != [] ==>
              ProcessItem(Encode(p), table) == Ok(ExpectedRow(p, table))
  {
    EncodedTitle(p);
    EncodedUrlAndCreated(p);
    EncodedDate(p);
    EncodedAuthors(p);
    if p.title != [] && (table != PapersTable || (p.date.Some? && p.authors != [])) {
      var r := ProcessItem(Encode(p), table);
      assert r.value.Keys == ExpectedRow(p, table).Keys;
    }
  }

  /** A minimal paper record and the five-column row it yields. */
  lemma PaperExample()
    ensures ProcessItem(Encode(NotionPage("p1", "2024-01-01T00:00:00Z", ["A"], Some("http://x"),
                                          Some("2024-01-02"), ["Jane"])), "papers")
         == Ok(map["title" := Str("A"), "url" := Str("http://x"),
                   "notion_timestamp" := Str("2024-01-01T00:00:00Z"),
                   "date" := Str("2024-01-02"), "authors" := Str("Jane")])
  {
    ProcessEncodedPage(NotionPage("p1", "2024-01-01T00:00:00Z", ["A"], Some("http://x"),
                                  Some("2024-01-02"), ["Jane"]), "papers");
  }
}
