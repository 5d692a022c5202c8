/**
  The BookStack connector: it pages through the books, chapters, shelves and
  pages of a BookStack instance, turns every item into a document (pages
  together with their attachments), and checks the configured credentials.

  The BookStack instance is modelled as a `Server` value that answers every
  list request with a consistent slice of a fixed item list per endpoint, and
  carries for each page the answers to the follow-up requests made for it
  (the page body, the attachment listing and each attachment's details).
  `build_app_url` is modelled by `AppLink(path)`: the link of the app path.
 */
module BookstackConnector {
  import opened Wrappers
  import opened Text

  // ---------------------------------------------------------------------
  // Items and documents
  // ---------------------------------------------------------------------

  /** The four kinds of content the connector indexes. */
  datatype Kind = Book | Chapter | Shelf | Page

  /** An attachment's details; the decoding and text extraction done on an
      uploaded file are foreign, so only their outcomes appear. */
  datatype AttachmentDetails = AttachmentDetails(
    name: Option<string>,
    external: bool,
    content: string,
    extension: string,
    decodes: bool,              // base64 decoding of `content` succeeds
    extracted: Option<string>)  // extracted text; None when extraction raises

  /** An attachment of the listing and, unless that request raised, its details. */
  datatype Attachment = Attachment(id: Option<int>, details: Option<AttachmentDetails>)

  /** The server's answers to the requests made for one page: the page body
      (its slug, update time and the text the HTML parser makes of the title
      heading and body) and the attachment listing, None when listing raised. */
  datatype PageDetails = PageDetails(
    slug: Option<string>,
    parsedText: string,
    updatedAt: Option<string>,
    attachments: Option<seq<Attachment>>)

  /** A listed item; absent JSON fields are None. */
  datatype Item = Item(
    id: Option<int>,
    name: Option<string>,
    description: Option<string>,
    slug: Option<string>,
    bookSlug: Option<string>,
    updatedAt: Option<string>,
    page: PageDetails)

  datatype Link = AppLink(path: string)

  datatype Section = Section(link: Link, text: string)

  datatype Document = Document(
    id: string,
    sections: seq<Section>,
    semanticIdentifier: string,
    title: string,
    updatedAt: Option<string>,
    docType: Kind)

  /** Python's `str` of an optional string: "None" when absent. */
  function Str(s: Option<string>): string {
    s.GetOr("None")
  }

  /** Python's `str` of an optional integer id. */
  function IdText(id: Option<int>): (t: string)
    ensures t != []
  {
    match id
    case Some(n) => IntToDecimal(n)
    case None => "None"
  }

  // ---------------------------------------------------------------------
  // Document ids and titles
  // ---------------------------------------------------------------------

  function IdPrefix(kind: Kind): string {
    match kind
    case Book => "book__"
    case Chapter => "chapter__"
    case Shelf => "shelf:"
    case Page => "page:"
  }

  function TitlePrefix(kind: Kind): string {
    match kind
    case Book => "Book: "
    case Chapter => "Chapter: "
    case Shelf => "Shelf: "
    case Page => "Page: "
  }

  function DocId(kind: Kind, idText: string): string {
    IdPrefix(kind) + idText
  }

  /** Reads a document id back into its kind and item id text. */
  function ParseDocId(s: string): (r: Option<(Kind, string)>)
    ensures r.Some? ==> DocId(r.value.0, r.value.1) == s
  {
    if StartsWith(s, "book__") then Some((Book, s[6..]))
    else if StartsWith(s, "chapter__") then Some((Chapter, s[9..]))
    else if StartsWith(s, "shelf:") then Some((Shelf, s[6..]))
    else if StartsWith(s, "page:") then Some((Page, s[5..]))
    else None
  }

  /** Every document id names its kind and item id unambiguously. */
  lemma DocIdRoundTrip(kind: Kind, idText: string)
    ensures ParseDocId(DocId(kind, idText)) == Some((kind, idText))
  {
    var s := DocId(kind, idText);
    var p := IdPrefix(kind);
    assert s[..|p|] == p && s[|p|..] == idText;
    assert s[0] == p[0];
  }

  /** Two items get the same document id only if kind and id agree. */
  lemma DocIdInjective(k1: Kind, t1: string, k2: Kind, t2: string)
    requires DocId(k1, t1) == DocId(k2, t2)
    ensures k1 == k2 && t1 == t2
  {
    DocIdRoundTrip(k1, t1);
    DocIdRoundTrip(k2, t2);
  }

  /** The numeric item id is recovered from the document id. */
  lemma ItemIdRecovered(kind: Kind, n: int)
    ensures ParseDocId(DocId(kind, IdText(Some(n)))) == Some((kind, IntToDecimal(n)))
    ensures ParseInt(IntToDecimal(n)) == Some(n)
  {
    DocIdRoundTrip(kind, IntToDecimal(n));
    IntRoundTrip(n);
  }

  // ---------------------------------------------------------------------
  // Books, chapters and shelves
  // ---------------------------------------------------------------------

  /** The app path of a book, chapter or shelf. */
  function ContainerPath(kind: Kind, item: Item): string
    requires kind != Page
  {
    match kind
    case Book => "/books/" + Str(item.slug)
    case Chapter => "/books/" + Str(item.bookSlug) + "/chapter/" + Str(item.slug)
    case Shelf => "/shelves/" + Str(item.slug)
  }

  /** A book, chapter or shelf becomes one document with one section holding
      its name and description. */
  function ContainerToDocument(kind: Kind, item: Item): (d: Document)
    requires kind != Page
    ensures ParseDocId(d.id) == Some((kind, IdText(item.id)))
    ensures d.title == item.name.GetOr("")
    ensures StartsWith(d.semanticIdentifier, TitlePrefix(kind))
    ensures d.semanticIdentifier[|TitlePrefix(kind)|..] == d.title
    ensures |d.sections| == 1
    ensures d.sections[0].link == AppLink(ContainerPath(kind, item))
    ensures d.sections[0].text == d.title + "\n" + item.description.GetOr("")
    ensures d.docType == kind && d.updatedAt == item.updatedAt
  {
    DocIdRoundTrip(kind, IdText(item.id));
    var title := item.name.GetOr("");
    var text := title + "\n" + item.description.GetOr("");
    Document(DocId(kind, IdText(item.id)), [Section(AppLink(ContainerPath(kind, item)), text)],
             TitlePrefix(kind) + title, title, item.updatedAt, kind)
  }

  // ---------------------------------------------------------------------
  // Pages and their attachments
  // ---------------------------------------------------------------------

  /** The name is given ".ext" unless the extension is empty or the name
      already ends with it. */
  function AttachmentFileName(name: string, extension: string): (r: string)
    ensures StartsWith(r, name)
    ensures extension != [] ==> EndsWith(r, "." + extension)
    ensures r == name <==> extension == [] || EndsWith(name, "." + extension)
    ensures r != name ==> r == name + "." + extension
  {
    var r := if extension != [] && !EndsWith(name, "." + extension) then name + "." + extension else name;
    assert r[..|name|] == name;
    assert r != name ==> r[|r| - |"." + extension|..] == "." + extension;
    r
  }

  /** Applying the rule to its own result changes nothing. */
  lemma AttachmentFileNameIdempotent(name: string, extension: string)
    ensures AttachmentFileName(AttachmentFileName(name, extension), extension)
            == AttachmentFileName(name, extension)
  {
  }

  /** The section an attachment contributes: external ones always give their
      link, uploaded ones only when they have content that decodes and yields
      text; a failed details request gives nothing. */
  function AttachmentSection(a: Attachment): (r: Option<Section>)
    ensures r.Some? <==>
              a.details.Some? &&
              (a.details.value.external ||
               (a.details.value.content != [] && a.details.value.decodes &&
                a.details.value.extracted.Some? && a.details.value.extracted.value != []))
    ensures r.Some? ==> r.value.link == AppLink("/attachments/" + IdText(a.id))
  {
    match a.details
    case None => None
    case Some(d) =>
      var fileName := AttachmentFileName(d.name.GetOr("Unnamed Attachment"), d.extension);
      var link := AppLink("/attachments/" + IdText(a.id));
      if d.external then
        Some(Section(link, "EXTERNAL ATTACHMENT: " + fileName + "\nLink: " + d.content))
      else if d.content == [] || !d.decodes then None
      else
        match d.extracted
        case Some(text) =>
          if text != [] then Some(Section(link, "ATTACHMENT: " + fileName + "\n\n" + text)) else None
        case None => None
  }

  /** The sections of the attachments that give one, in listing order. */
  function AttachmentSections(attachments: seq<Attachment>): (r: seq<Section>)
    ensures |r| <= |attachments|
  {
    if attachments == [] then []
    else
      AttachmentSections(attachments[..|attachments| - 1])
      + match AttachmentSection(attachments[|attachments| - 1])
        case Some(s) => [s]
        case None => []
  }

  /** Sections of a concatenated listing are the concatenated sections. */
  lemma {:induction false} AttachmentSectionsAppend(xs: seq<Attachment>, ys: seq<Attachment>)
    ensures AttachmentSections(xs + ys) == AttachmentSections(xs) + AttachmentSections(ys)
    decreases |ys|
  {
    if ys == [] {
      assert xs + ys == xs;
    } else {
      var init := ys[..|ys| - 1];
      assert (xs + ys)[..|xs + ys| - 1] == xs + init;
      AttachmentSectionsAppend(xs, init);
    }
  }

  /** Exactly the attachments that give a section appear, each once. */
  lemma {:induction false} AttachmentSectionsMembers(xs: seq<Attachment>, s: Section)
    ensures s in AttachmentSections(xs) <==> exists i :: 0 <= i < |xs| && AttachmentSection(xs[i]) == Some(s)
  {
    if xs != [] {
      var init := xs[..|xs| - 1];
      AttachmentSectionsMembers(init, s);
      if exists i :: 0 <= i < |init| && AttachmentSection(init[i]) == Some(s) {
        var i :| 0 <= i < |init| && AttachmentSection(init[i]) == Some(s);
        assert xs[i] == init[i];
      }
      if exists i :: 0 <= i < |xs| && AttachmentSection(xs[i]) == Some(s) {
        var i :| 0 <= i < |xs| && AttachmentSection(xs[i]) == Some(s);
        if i < |init| {
          assert init[i] == xs[i];
        }
      }
    }
  }

  /** The link of a page: its book's slug and the page body's slug. */
  function PagePath(page: Item): string {
    "/books/" + Str(page.bookSlug) + "/page/" + Str(page.page.slug)
  }

  /** A page becomes one document: its own section first, then the sections
      of its attachments in listing order. */
  function PageDocument(page: Item): (d: Document)
    ensures ParseDocId(d.id) == Some((Page, IdText(page.id)))
    ensures StartsWith(d.semanticIdentifier, TitlePrefix(Page))
    ensures d.semanticIdentifier[|TitlePrefix(Page)|..] == d.title == page.name.GetOr("")
    ensures 1 <= |d.sections|
    ensures d.sections[0] == Section(AppLink(PagePath(page)), page.page.parsedText)
    ensures page.page.attachments.None? ==> |d.sections| == 1
    ensures page.page.attachments.Some? ==> |d.sections| <= 1 + |page.page.attachments.value|
    ensures page.page.attachments.Some? ==> d.sections[1..] == AttachmentSections(page.page.attachments.value)
    ensures d.docType == Page && d.updatedAt == page.page.updatedAt
  {
    DocIdRoundTrip(Page, IdText(page.id));
    var title := page.name.GetOr("");
    var attachmentSections := match page.page.attachments
      case Some(xs) => AttachmentSections(xs)
      case None => [];
    Document(DocId(Page, IdText(page.id)),
             [Section(AppLink(PagePath(page)), page.page.parsedText)] + attachmentSections,
             TitlePrefix(Page) + title, title, page.page.updatedAt, Page)
  }

  /** Builds a page's document, appending attachment sections one by one. */
  method PageToDocument(page: Item) returns (d: Document)
    ensures d == PageDocument(page)
  {
    var pageId := IdText(page.id);
    var title := page.name.GetOr("");
    var url := AppLink(PagePath(page));
    var attachmentSections: seq<Section> := [];
    match page.page.attachments {
      case Some(all) =>
        for i := 0 to |all|
          invariant attachmentSections == AttachmentSections(all[..i])
        {
          assert all[..i + 1][..i] == all[..i];
          var section := AttachmentSection(all[i]);
          if section.Some? {
            attachmentSections := attachmentSections + [section.value];
          }
        }
        assert all[..|all|] == all;
      case None =>
    }
    d := Document("page:" + pageId, [Section(url, page.page.parsedText)] + attachmentSections,
                  "Page: " + title, title, page.page.updatedAt, Page);
  }

  /** The document of an item of the given kind. */
  function ToDocument(kind: Kind, item: Item): (d: Document)
    ensures ParseDocId(d.id) == Some((kind, IdText(item.id)))
    ensures d.docType == kind
  {
    if kind == Page then PageDocument(item) else ContainerToDocument(kind, item)
  }

  function Docs(kind: Kind, items: seq<Item>): (r: seq<Document>)
    ensures |r| == |items|
    ensures forall i :: 0 <= i < |items| ==> r[i] == ToDocument(kind, items[i])
  {
    MapSeq((item: Item) => ToDocument(kind, item), items)
  }

  // ---------------------------------------------------------------------
  // Batch requests
  // ---------------------------------------------------------------------

  /** A query parameter's value; the date filters carry the instant they
      format, since the formatting itself is not modelled. */
  datatype ParamValue = Plain(text: string) | UtcTime(seconds: real)

  /** A request to a list endpoint with its query parameters. */
  datatype Request = Request(endpoint: string, params: map<string, ParamValue>)

  const UpdatedSinceKey: string := "filter[updated_at:gte]"
  const UpdatedUntilKey: string := "filter[updated_at:lte]"

  /** Python truthiness of an optional epoch time: absent and 0 are false. */
  predicate Truthy(t: Option<real>) {
    t.Some? && t.value != 0.0
  }

  /** The parameters of a batch request: the window and id order always, a
      date filter only for a truthy bound. */
  function BatchParams(batchSize: int, startInd: int, start: Option<real>, end: Option<real>)
    : map<string, ParamValue>
  {
    var base := map["count" := Plain(IntToDecimal(batchSize)),
                    "offset" := Plain(IntToDecimal(startInd)),
                    "sort" := Plain("+id")];
    var withStart := if Truthy(start) then base[UpdatedSinceKey := UtcTime(start.value)] else base;
    if Truthy(end) then withStart[UpdatedUntilKey := UtcTime(end.value)] else withStart
  }

  /** The parameters of a batch request: count, offset and sort always, each
      date filter exactly when its bound is truthy, and nothing else. */
  lemma BatchParamsKeys(batchSize: int, startInd: int, start: Option<real>, end: Option<real>)
    ensures var ps := BatchParams(batchSize, startInd, start, end);
            && "count" in ps && ps["count"] == Plain(IntToDecimal(batchSize))
            && "offset" in ps && ps["offset"] == Plain(IntToDecimal(startInd))
            && "sort" in ps && ps["sort"] == Plain("+id")
            && (UpdatedSinceKey in ps <==> Truthy(start))
            && (UpdatedSinceKey in ps ==> ps[UpdatedSinceKey] == UtcTime(start.value))
            && (UpdatedUntilKey in ps <==> Truthy(end))
            && (UpdatedUntilKey in ps ==> ps[UpdatedUntilKey] == UtcTime(end.value))
            && ps.Keys <= {"count", "offset", "sort", UpdatedSinceKey, UpdatedUntilKey}
  {
  }

  /** The server reads the requested window back from the parameters. */
  lemma BatchWindowRecovered(batchSize: int, startInd: int, start: Option<real>, end: Option<real>)
    ensures var ps := BatchParams(batchSize, startInd, start, end);
            ParseInt(ps["count"].text) == Some(batchSize) &&
            ParseInt(ps["offset"].text) == Some(startInd)
  {
    BatchParamsKeys(batchSize, startInd, start, end);
    IntRoundTrip(batchSize);
    IntRoundTrip(startInd);
  }

  /** A BookStack instance: every list endpoint's items in id order (those
      matching any date filter), answered in slices. */
  datatype Server = Server(listings: map<string, seq<Item>>)

  function Listing(server: Server, endpoint: string): seq<Item> {
    if endpoint in server.listings then server.listings[endpoint] else []
  }

  function Min(a: int, b: int): int {
    if a < b then a else b
  }

  /** What the server answers for `count` items from `offset` on. */
  function Slice(items: seq<Item>, offset: nat, count: nat): seq<Item> {
    items[Min(offset, |items|)..Min(offset + count, |items|)]
  }

  /** One batch request and its answer. */
  datatype Batch = Batch(request: Request, docs: seq<Document>, count: nat)

  /** Requests one batch and turns each returned item into a document. */
  function GetDocBatch(batchSize: nat, server: Server, endpoint: string, kind: Kind, startInd: nat,
                       start: Option<real>, end: Option<real>): (b: Batch)
    ensures b.request == Request(endpoint, BatchParams(batchSize, startInd, start, end))
    ensures b.docs == Docs(kind, Slice(Listing(server, endpoint), startInd, batchSize))
    ensures |b.docs| == b.count <= batchSize
  {
    var batch := Slice(Listing(server, endpoint), startInd, batchSize);
    Batch(Request(endpoint, BatchParams(batchSize, startInd, start, end)), Docs(kind, batch), |batch|)
  }

  /** A batch holds the document of each item from the offset on, in order:
      a full batch while enough items remain, else all that remain. */
  lemma GetDocBatchItems(batchSize: nat, server: Server, endpoint: string, kind: Kind, startInd: nat,
                         start: Option<real>, end: Option<real>)
    ensures var b := GetDocBatch(batchSize, server, endpoint, kind, startInd, start, end);
            var items := Listing(server, endpoint);
            && (startInd <= |items| ==> b.count == Min(batchSize, |items| - startInd))
            && forall i :: 0 <= i < b.count ==>
                 startInd + i < |items| && b.docs[i] == ToDocument(kind, items[startInd + i])
  {
    var items := Listing(server, endpoint);
    var batch := Slice(items, startInd, batchSize);
    assert forall i :: 0 <= i < |batch| ==> startInd + i < |items| && batch[i] == items[startInd + i];
  }

  // ---------------------------------------------------------------------
  // Polling
  // ---------------------------------------------------------------------

  /** The endpoints in the order they are polled, with the kind each lists. */
  const Endpoints: seq<(string, Kind)> :=
    [("/books", Book), ("/chapters", Chapter), ("/shelves", Shelf), ("/pages", Page)]

  /** The batches yielded for one endpoint's items: full batches while the
      answers are full, then the last, shorter one unless it is empty. */
  function DocChunks(kind: Kind, items: seq<Item>, batchSize: nat): seq<seq<Document>>
    requires batchSize > 0
    decreases |items|
  {
    if |items| < batchSize then (if items == [] then [] else [Docs(kind, items)])
    else [Docs(kind, items[..batchSize])] + DocChunks(kind, items[batchSize..], batchSize)
  }

  function Flatten<T>(xss: seq<seq<T>>): seq<T> {
    if xss == [] then [] else xss[0] + Flatten(xss[1..])
  }

  /** Together the batches hold every item's document once, in order. */
  lemma {:induction false} DocChunksFlatten(kind: Kind, items: seq<Item>, batchSize: nat)
    requires batchSize > 0
    ensures Flatten(DocChunks(kind, items, batchSize)) == Docs(kind, items)
    decreases |items|
  {
    if |items| < batchSize {
      if items != [] {
        assert [Docs(kind, items)][1..] == [];
      }
    } else {
      var rest := items[batchSize..];
      var chunks := DocChunks(kind, items, batchSize);
      assert chunks[0] == Docs(kind, items[..batchSize]);
      assert chunks[1..] == DocChunks(kind, rest, batchSize);
      assert Flatten(chunks) == chunks[0] + Flatten(chunks[1..]);
      DocChunksFlatten(kind, rest, batchSize);
      DocsSplit(kind, items, batchSize);
    }
  }

  /** The documents of a listing are those of its first n items, then those of the rest. */
  lemma DocsSplit(kind: Kind, items: seq<Item>, n: nat)
    requires n <= |items|
    ensures Docs(kind, items) == Docs(kind, items[..n]) + Docs(kind, items[n..])
  {
    MapSeqSplit((item: Item) => ToDocument(kind, item), items, n);
  }

  /** No batch is empty, none is larger than the batch size, and every batch
      but the last is full. */
  predicate Chunked<T>(chunks: seq<seq<T>>, batchSize: nat) {
    forall j :: 0 <= j < |chunks| ==>
      1 <= |chunks[j]| <= batchSize && (j < |chunks| - 1 ==> |chunks[j]| == batchSize)
  }

  lemma {:induction false} DocChunksShape(kind: Kind, items: seq<Item>, batchSize: nat)
    requires batchSize > 0
    ensures Chunked(DocChunks(kind, items, batchSize), batchSize)
    decreases |items|
  {
    if |items| >= batchSize {
      DocChunksShape(kind, items[batchSize..], batchSize);
      var chunks := DocChunks(kind, items, batchSize);
      var rest := DocChunks(kind, items[batchSize..], batchSize);
      assert chunks == [Docs(kind, items[..batchSize])] + rest;
      forall j | 0 <= j < |chunks|
        ensures 1 <= |chunks[j]| <= batchSize && (j < |chunks| - 1 ==> |chunks[j]| == batchSize)
      {
        if j > 0 {
          assert chunks[j] == rest[j - 1];
          assert 1 <= |rest[j - 1]| <= batchSize && (j - 1 < |rest| - 1 ==> |rest[j - 1]| == batchSize);
        }
      }
    }
  }

  /** The requests made for one endpoint from `offset` on: one more request
      after every full answer. */
  function EndpointRequests(endpoint: string, count: nat, offset: nat, batchSize: nat,
                            start: Option<real>, end: Option<real>): (r: seq<Request>)
    requires batchSize > 0
    decreases count - offset
  {
    [Request(endpoint, BatchParams(batchSize, offset, start, end))]
    + if offset + batchSize <= count
      then EndpointRequests(endpoint, count, offset + batchSize, batchSize, start, end)
      else []
  }

  lemma MulStep(k: int, n: int)
    ensures (k - 1) * n + n == k * n
  {
  }

  /** The window after the first, k − 1 windows on, is k windows on. */
  lemma OffsetStep(offset: int, k: int, n: int)
    ensures offset + n + (k - 1) * n == offset + k * n
  {
    MulStep(k, n);
  }

  /** The k-th request asks from offset k * batch size on. */
  lemma {:induction false} EndpointRequestsOffsets(endpoint: string, count: nat, offset: nat, batchSize: nat,
                                                   start: Option<real>, end: Option<real>, k: nat)
    requires batchSize > 0
    requires k < |EndpointRequests(endpoint, count, offset, batchSize, start, end)|
    ensures EndpointRequests(endpoint, count, offset, batchSize, start, end)[k]
            == Request(endpoint, BatchParams(batchSize, offset + k * batchSize, start, end))
    decreases count - offset
  {
    var all := EndpointRequests(endpoint, count, offset, batchSize, start, end);
    var first := Request(endpoint, BatchParams(batchSize, offset, start, end));
    if k == 0 {
      assert all[0] == first;
      assert offset + k * batchSize == offset;
    } else {
      assert offset + batchSize <= count;
      var rest := EndpointRequests(endpoint, count, offset + batchSize, batchSize, start, end);
      assert all == [all[0]] + rest;
      assert all[k] == rest[k - 1];
      EndpointRequestsOffsets(endpoint, count, offset + batchSize, batchSize, start, end, k - 1);
      OffsetStep(offset, k, batchSize);
    }
  }

  /** Requests continue exactly until one's window reaches past the items:
      the last request starts within them and asks for more than remain. */
  lemma {:induction false} EndpointRequestsCount(endpoint: string, count: nat, offset: nat, batchSize: nat,
                                                 start: Option<real>, end: Option<real>)
    requires batchSize > 0 && offset <= count
    ensures var n := |EndpointRequests(endpoint, count, offset, batchSize, start, end)|;
            offset + (n - 1) * batchSize <= count < offset + n * batchSize
    decreases count - offset
  {
    if offset + batchSize <= count {
      var n := |EndpointRequests(endpoint, count, offset + batchSize, batchSize, start, end)|;
      EndpointRequestsCount(endpoint, count, offset + batchSize, batchSize, start, end);
      MulStep(n, batchSize);
      MulStep(n + 1, batchSize);
    }
  }

  /** The batches yielded by polling the given endpoints, in order. */
  function PolledBatches(server: Server, endpoints: seq<(string, Kind)>, batchSize: nat): seq<seq<Document>>
    requires batchSize > 0
  {
    if endpoints == [] then []
    else
      var (endpoint, kind) := endpoints[|endpoints| - 1];
      PolledBatches(server, endpoints[..|endpoints| - 1], batchSize)
      + DocChunks(kind, Listing(server, endpoint), batchSize)
  }

  /** The batch requests made while polling the given endpoints, in order. */
  function PolledRequests(server: Server, endpoints: seq<(string, Kind)>, batchSize: nat,
                          start: Option<real>, end: Option<real>): seq<Request>
    requires batchSize > 0
  {
    if endpoints == [] then []
    else
      var endpoint := endpoints[|endpoints| - 1].0;
      PolledRequests(server, endpoints[..|endpoints| - 1], batchSize, start, end)
      + EndpointRequests(endpoint, |Listing(server, endpoint)|, 0, batchSize, start, end)
  }

  /** The documents of all endpoints, in polling order. */
  function AllDocs(server: Server, endpoints: seq<(string, Kind)>): seq<Document> {
    if endpoints == [] then []
    else
      var (endpoint, kind) := endpoints[|endpoints| - 1];
      AllDocs(server, endpoints[..|endpoints| - 1]) + Docs(kind, Listing(server, endpoint))
  }

  lemma FlattenAppend<T>(xss: seq<seq<T>>, yss: seq<seq<T>>)
    ensures Flatten(xss + yss) == Flatten(xss) + Flatten(yss)
  {
    if xss != [] {
      assert (xss + yss)[1..] == xss[1..] + yss;
    } else {
      assert xss + yss == yss;
    }
  }

  /** Polling yields every item's document exactly once, endpoint by
      endpoint, each endpoint's items in order. */
  lemma {:induction false} PolledBatchesFlatten(server: Server, endpoints: seq<(string, Kind)>, batchSize: nat)
    requires batchSize > 0
    ensures Flatten(PolledBatches(server, endpoints, batchSize)) == AllDocs(server, endpoints)
  {
    if endpoints != [] {
      var (endpoint, kind) := endpoints[|endpoints| - 1];
      var init := endpoints[..|endpoints| - 1];
      PolledBatchesFlatten(server, init, batchSize);
      FlattenAppend(PolledBatches(server, init, batchSize), DocChunks(kind, Listing(server, endpoint), batchSize));
      DocChunksFlatten(kind, Listing(server, endpoint), batchSize);
    }
  }

  /** Polling one more endpoint appends that endpoint's batches and requests. */
  lemma PolledStep(server: Server, endpoints: seq<(string, Kind)>, e: nat, batchSize: nat,
                   start: Option<real>, end: Option<real>)
    requires batchSize > 0 && e < |endpoints|
    ensures PolledBatches(server, endpoints[..e + 1], batchSize)
            == PolledBatches(server, endpoints[..e], batchSize)
               + DocChunks(endpoints[e].1, Listing(server, endpoints[e].0), batchSize)
    ensures PolledRequests(server, endpoints[..e + 1], batchSize, start, end)
            == PolledRequests(server, endpoints[..e], batchSize, start, end)
               + EndpointRequests(endpoints[e].0, |Listing(server, endpoints[e].0)|, 0, batchSize, start, end)
  {
    assert endpoints[..e + 1][..e] == endpoints[..e];
  }

  /** One step of the inner loop: the batch at `offset` and what is left. */
  lemma DocChunksStep(kind: Kind, items: seq<Item>, offset: nat, batchSize: nat)
    requires batchSize > 0 && offset <= |items|
    ensures var batch := Slice(items, offset, batchSize);
            DocChunks(kind, items[offset..], batchSize)
            == (if batch == [] then [] else [Docs(kind, batch)])
               + (if |batch| == batchSize then DocChunks(kind, items[offset + batchSize..], batchSize) else [])
  {
    var rest := items[offset..];
    if |rest| >= batchSize {
      assert rest[..batchSize] == Slice(items, offset, batchSize);
      assert rest[batchSize..] == items[offset + batchSize..];
    } else {
      assert rest == Slice(items, offset, batchSize);
    }
  }

  /** The batches so far, followed by those of the items from `offset` on,
      are all the endpoint's batches. */
  ghost predicate BatchesFrom(kind: Kind, items: seq<Item>, batchSize: nat, offset: nat,
                              batches: seq<seq<Document>>)
    requires batchSize > 0
  {
    offset <= |items| && batches + DocChunks(kind, items[offset..], batchSize) == DocChunks(kind, items, batchSize)
  }

  /** The requests so far, followed by those from `offset` on, are all the
      endpoint's requests. */
  ghost predicate RequestsFrom(endpoint: string, count: nat, batchSize: nat, start: Option<real>, end: Option<real>,
                               offset: nat, requests: seq<Request>)
    requires batchSize > 0
  {
    requests + EndpointRequests(endpoint, count, offset, batchSize, start, end)
    == EndpointRequests(endpoint, count, 0, batchSize, start, end)
  }

  /** The batches still to come shrink by the batch just yielded; a short
      batch is the last. */
  lemma BatchesAdvance(kind: Kind, items: seq<Item>, batchSize: nat, offset: nat, batches: seq<seq<Document>>,
                       docs: seq<Document>, nextOffset: nat, nextBatches: seq<seq<Document>>)
    requires batchSize > 0 && BatchesFrom(kind, items, batchSize, offset, batches)
    requires docs == Docs(kind, Slice(items, offset, batchSize))
    requires nextOffset == offset + |docs|
    requires nextBatches == if docs == [] then batches else batches + [docs]
    ensures |docs| == batchSize ==>
              offset + batchSize <= |items| && BatchesFrom(kind, items, batchSize, nextOffset, nextBatches)
    ensures |docs| < batchSize ==> offset + batchSize > |items| && nextBatches == DocChunks(kind, items, batchSize)
  {
    DocChunksStep(kind, items, offset, batchSize);
    var batch := Slice(items, offset, batchSize);
    if |docs| == batchSize {
      assert |batch| == batchSize && batch != [];
      var tail := DocChunks(kind, items[offset + batchSize..], batchSize);
      assert DocChunks(kind, items[offset..], batchSize) == [docs] + tail;
      AppendAssoc(batches, [docs], tail);
    } else if docs == [] {
      assert DocChunks(kind, items[offset..], batchSize) == [];
      assert batches + [] == batches;
    } else {
      assert DocChunks(kind, items[offset..], batchSize) == [docs];
    }
  }

  /** The requests still to come shrink by the request just made; after the
      last one they are complete. */
  lemma RequestsAdvance(endpoint: string, count: nat, batchSize: nat, start: Option<real>, end: Option<real>,
                        offset: nat, requests: seq<Request>, nextRequests: seq<Request>)
    requires batchSize > 0 && RequestsFrom(endpoint, count, batchSize, start, end, offset, requests)
    requires nextRequests == requests + [Request(endpoint, BatchParams(batchSize, offset, start, end))]
    ensures offset + batchSize <= count ==>
              RequestsFrom(endpoint, count, batchSize, start, end, offset + batchSize, nextRequests)
    ensures offset + batchSize > count ==>
              nextRequests == EndpointRequests(endpoint, count, 0, batchSize, start, end)
  {
    var request := Request(endpoint, BatchParams(batchSize, offset, start, end));
    if offset + batchSize <= count {
      var tail := EndpointRequests(endpoint, count, offset + batchSize, batchSize, start, end);
      assert EndpointRequests(endpoint, count, offset, batchSize, start, end) == [request] + tail;
      AppendAssoc(requests, [request], tail);
    } else {
      assert EndpointRequests(endpoint, count, offset, batchSize, start, end) == [request] + [];
      assert [request] + [] == [request];
    }
  }

  // ---------------------------------------------------------------------
  // The connector
  // ---------------------------------------------------------------------

  datatype ConnectorError =
    | MissingCredential(message: string)
    | CredentialExpired(message: string)
    | InsufficientPermissions(message: string)
    | ValidationFailed(message: string)

  /** The batches a poll yields and the requests it makes, or its error. */
  datatype PollResult = Polled(batches: seq<seq<Document>>, requests: seq<Request>) | PollFailed(error: ConnectorError)

  /** How the credential probe request ended. */
  datatype ProbeResult = ProbeOk | RequestFailed(status: int, description: string) | OtherError(description: string)

  /** The probe, made only when credentials are loaded: one book from offset 0. */
  const ProbeEndpoint: string := "/books"
  const ProbeParams: map<string, ParamValue> := map["count" := Plain("1"), "offset" := Plain("0")]

  const NotLoadedMessage: string := "BookStack credentials have not been loaded."
  const ExpiredMessage: string := "Your BookStack credentials appear to be invalid or expired (HTTP 401)."
  const ForbiddenMessage: string := "The configured BookStack token does not have sufficient permissions (HTTP 403)."
  const StatusPrefix: string := "Unexpected BookStack error (status="
  const OtherErrorPrefix: string := "Unexpected error while validating BookStack connector settings: "

  /** The outcome of validating the settings, given whether credentials are
      loaded and how the probe request ended. */
  function ValidationOutcome(hasClient: bool, probe: ProbeResult): (r: Outcome<ConnectorError>)
    ensures r.Pass? <==> hasClient && probe.ProbeOk?
    ensures r.Fail? && r.error.MissingCredential? <==> !hasClient
    ensures r.Fail? && r.error.CredentialExpired? <==> hasClient && probe.RequestFailed? && probe.status == 401
    ensures r.Fail? && r.error.InsufficientPermissions? <==> hasClient && probe.RequestFailed? && probe.status == 403
    ensures r.Fail? && r.error.ValidationFailed? <==>
              hasClient && !probe.ProbeOk? && !(probe.RequestFailed? && probe.status in {401, 403})
  {
    if !hasClient then Fail(MissingCredential(NotLoadedMessage))
    else
      match probe
      case ProbeOk => Pass
      case RequestFailed(status, description) =>
        if status == 401 then
          Fail(CredentialExpired(ExpiredMessage))
        else if status == 403 then
          Fail(InsufficientPermissions(ForbiddenMessage))
        else
          Fail(ValidationFailed(StatusPrefix + IntToDecimal(status) + "): " + description))
      case OtherError(description) =>
        Fail(ValidationFailed(OtherErrorPrefix + description))
  }

  /** The status of an unexpected HTTP failure can be read from its message. */
  lemma UnexpectedStatusReported(status: int, description: string)
    requires status != 401 && status != 403
    ensures var r := ValidationOutcome(true, RequestFailed(status, description));
            var prefix := StatusPrefix;
            StartsWith(r.error.message, prefix) &&
            ParseInt(r.error.message[|prefix|..|prefix| + |IntToDecimal(status)|]) == Some(status)
  {
    var prefix := StatusPrefix;
    var m := ValidationOutcome(true, RequestFailed(status, description)).error.message;
    var d := IntToDecimal(status);
    assert m == prefix + d + "): " + description;
    AppendAssoc(prefix + d, "): ", description);
    ConcatMiddle(prefix, d, "): " + description);
    IntRoundTrip(status);
  }

  /** Polls one endpoint from offset 0: batch after batch, yielding the
      non-empty ones, until an answer is shorter than the batch size. */
  method PollEndpoint(server: Server, endpoint: string, kind: Kind, batchSize: nat,
                      start: Option<real>, end: Option<real>)
    returns (batches: seq<seq<Document>>, requests: seq<Request>)
    requires batchSize > 0
    ensures batches == DocChunks(kind, Listing(server, endpoint), batchSize)
    ensures requests == EndpointRequests(endpoint, |Listing(server, endpoint)|, 0, batchSize, start, end)
  {
    ghost var items := Listing(server, endpoint);
    batches, requests := [], [];
    var startInd: nat := 0;
    assert items[0..] == items;
    while true
      invariant BatchesFrom(kind, items, batchSize, startInd, batches)
      invariant RequestsFrom(endpoint, |items|, batchSize, start, end, startInd, requests)
      decreases |items| - startInd
    {
      var batch := GetDocBatch(batchSize, server, endpoint, kind, startInd, start, end);
      ghost var offset, batchesBefore, requestsBefore := startInd, batches, requests;
      requests := requests + [batch.request];
      if batch.docs != [] {
        batches := batches + [batch.docs];
      }
      startInd := startInd + batch.count;
      BatchesAdvance(kind, items, batchSize, offset, batchesBefore, batch.docs, startInd, batches);
      RequestsAdvance(endpoint, |items|, batchSize, start, end, offset, requestsBefore, requests);
      if batch.count < batchSize {
        break;
      }
    }
  }

  class Connector {
    var batchSize: int
    var client: Option<Server>

    constructor (batchSize: int)
      ensures this.batchSize == batchSize && client == None
    {
      this.batchSize := batchSize;
      client := None;
    }

    method LoadCredentials(server: Server)
      modifies this
      ensures client == Some(server) && batchSize == old(batchSize)
    {
      client := Some(server);
    }

    /** Polls every endpoint in turn, batch by batch, yielding the non-empty
        batches. */
    method PollSource(start: Option<real>, end: Option<real>) returns (r: PollResult)
      requires batchSize > 0
      ensures client.None? ==> r == PollFailed(MissingCredential("Bookstack"))
      ensures client.Some? ==>
                r == Polled(PolledBatches(client.value, Endpoints, batchSize),
                            PolledRequests(client.value, Endpoints, batchSize, start, end))
    {
      if client.None? {
        return PollFailed(MissingCredential("Bookstack"));
      }
      var server := client.value;
      var batches: seq<seq<Document>> := [];
      var requests: seq<Request> := [];
      for e := 0 to |Endpoints|
        invariant batches == PolledBatches(server, Endpoints[..e], batchSize)
        invariant requests == PolledRequests(server, Endpoints[..e], batchSize, start, end)
      {
        var (endpoint, kind) := Endpoints[e];
        PolledStep(server, Endpoints, e, batchSize, start, end);
        var endpointBatches, endpointRequests := PollEndpoint(server, endpoint, kind, batchSize, start, end);
        batches := batches + endpointBatches;
        requests := requests + endpointRequests;
      }
      assert Endpoints[..|Endpoints|] == Endpoints;
      r := Polled(batches, requests);
    }

    /** A full load is a poll without date filters. */
    method LoadFromState() returns (r: PollResult)
      requires batchSize > 0
      ensures client.None? ==> r == PollFailed(MissingCredential("Bookstack"))
      ensures client.Some? ==>
                r == Polled(PolledBatches(client.value, Endpoints, batchSize),
                            PolledRequests(client.value, Endpoints, batchSize, None, None))
    {
      if client.None? {
        return PollFailed(MissingCredential("Bookstack"));
      }
      r := PollSource(None, None);
    }

    /** Checks the credentials with one small request to the books endpoint. */
    method ValidateConnectorSettings(probe: ProbeResult) returns (request: Option<Request>, r: Outcome<ConnectorError>)
      ensures request.Some? <==> client.Some?
      ensures request.Some? ==> request.value == Request(ProbeEndpoint, ProbeParams)
      ensures r == ValidationOutcome(client.Some?, probe)
    {
      if client.None? {
        request := None;
      } else {
        request := Some(Request(ProbeEndpoint, ProbeParams));
      }
      r := ValidationOutcome(client.Some?, probe);
    }
  }
}
