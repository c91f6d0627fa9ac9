/** The waterfall analyzer: a simulated load timeline of the page's document,
    stylesheets, scripts and images, its aggregate metrics and its efficiency
    score. The file references found in the HTML are inputs. */
module Waterfall {
  import opened Prelude
  import opened Sequences

  datatype ResourceType = Document | Stylesheet | Script | Image

  /** One row of the waterfall. Two columns are left implicit: the kilobyte
      size, a rounded copy of `size`, and the MIME type, which is always
      `MimeType(name)`. */
  datatype Resource = Resource(
    rtype: ResourceType,
    name: string,
    size: int,
    startTime: int,
    dnsTime: int,
    tcpTime: int,
    requestTime: int,
    responseTime: int,
    totalTime: int,
    endTime: int,
    blocked: int,
    status: int)

  const ImageExtensions: seq<string> := [".jpg", ".jpeg", ".png", ".gif", ".webp", ".svg"]

  /** `_get_mime_type`: the first of the `.css`, `.js` and image-extension
      tests that the name passes decides; a name that passes none is HTML. */
  function MimeType(filename: string): (m: string)
    ensures m in {"text/css", "application/javascript", "image/jpeg", "text/html"}
    ensures m == "text/css" <==> Contains(filename, ".css")
    ensures m == "text/html" <==>
              !Contains(filename, ".css") && !Contains(filename, ".js") &&
              forall x :: x in ImageExtensions ==> !Contains(filename, x)
    ensures m == "application/javascript" <==> !Contains(filename, ".css") && Contains(filename, ".js")
    ensures m == "image/jpeg" <==>
              !Contains(filename, ".css") && !Contains(filename, ".js") &&
              exists x :: x in ImageExtensions && Contains(filename, x)
  {
    if Contains(filename, ".css") then "text/css"
    else if Contains(filename, ".js") then "application/javascript"
    else if exists x :: x in ImageExtensions && Contains(filename, x) then "image/jpeg"
    else "text/html"
  }

  /** A JSON file name is classified as JavaScript, the `.js` test being a substring test. */
  lemma JsonIsJavaScript()
    ensures MimeType("data.json") == "application/javascript"
  {
    assert !Contains("data.json", ".css") by {
      NotContainsChar("data.json", ".css", 'c');
    }
    var j := ".json";
    assert StartsWith(j, ".js") by { assert j[..3] == ".js"; }
    assert "data.json" == "data" + j;
    ContainsInRight("data", j, ".js");
  }

  /** The invariants every row keeps. */
  predicate WellFormed(r: Resource)
  {
    r.totalTime == r.dnsTime + r.tcpTime + r.requestTime + r.responseTime &&
    r.endTime == r.startTime + r.totalTime &&
    r.blocked == 0 && r.status == 200
  }

  /** `_create_resource`. */
  function CreateResource(rtype: ResourceType, name: string, size: int, startTime: int,
                          dns: int, tcp: int, request: int, response: int): (r: Resource)
    ensures WellFormed(r)
    ensures r.rtype == rtype && r.name == name && r.size == size && r.startTime == startTime
    ensures r.dnsTime == dns && r.tcpTime == tcp && r.requestTime == request && r.responseTime == response
  {
    Resource(rtype, name, size, startTime, dns, tcp, request, response,
             dns + tcp + request + response, startTime + dns + tcp + request + response,
             0, 200)
  }

  /** `_estimate_html_size`: the UTF-8 length of the page, 50000 without a page. */
  function EstimateHtmlSize(htmlUtf8Length: nat): nat
  {
    if htmlUtf8Length == 0 then 50000 else htmlUtf8Length
  }

  /** The references an extractor returns: the matches, or the single default
      when there are none. */
  function References(matches: seq<string>, default: string): (refs: seq<string>)
    ensures |refs| >= 1
  {
    if matches == [] then [default] else matches
  }

  /** `ref.split('/')[-1] or fallback`. */
  function NameOr(ref: string, fallback: string): string
  {
    var segment := LastSegment(ref);
    if segment == [] then fallback else segment
  }

  /** The name is the text after the reference's last '/', which holds no
      '/' and ends the reference; only a reference that is empty or ends in
      '/' gets the fallback. */
  lemma NameOrSpec(ref: string, fallback: string)
    ensures var seg := LastSegment(ref);
            (seg != [] ==> NameOr(ref, fallback) == seg && '/' !in seg && |seg| <= |ref| && ref[|ref| - |seg|..] == seg) &&
            (seg == [] <==> ref == [] || ref[|ref| - 1] == '/') &&
            (seg == [] ==> NameOr(ref, fallback) == fallback)
  {
    LastSegmentSpec(ref);
  }

  function DocumentEntry(htmlUtf8Length: nat): Resource
  {
    CreateResource(Document, "index.html", EstimateHtmlSize(htmlUtf8Length), 0, 50, 100, 50, 200)
  }

  /** Row `i` of each kind, on a clock that stood at `clock` when the kind began. */
  function StylesheetEntry(ref: string, i: nat, clock: int): Resource
  {
    CreateResource(Stylesheet, NameOr(ref, "style.css"), 30000 + i * 5000, clock + i * 50, 30, 80, 30, 100)
  }

  /** The fallback names `script{i}.js` and `image{i}.jpg`. */
  function ScriptName(i: nat): string
  {
    "script" + NatToString(i) + ".js"
  }

  function ImageName(i: nat): string
  {
    "image" + NatToString(i) + ".jpg"
  }

  function ScriptEntry(ref: string, i: nat, clock: int): Resource
  {
    CreateResource(Script, NameOr(ref, ScriptName(i)), 50000 + i * 10000, clock + i * 100, 20, 60, 20, 150)
  }

  function ImageEntry(ref: string, i: nat, clock: int): Resource
  {
    CreateResource(Image, NameOr(ref, ImageName(i)), 100000 + i * 50000, clock + i * 200, 10, 50, 10, 200 + i * 50)
  }

  /** The rows of one kind, the i-th made by `entry` from the i-th reference. */
  function Rows(refs: seq<string>, clock: int, entry: (string, nat, int) -> Resource): (r: seq<Resource>)
    ensures |r| == |refs|
  {
    if refs == [] then [] else Rows(refs[..|refs| - 1], clock, entry) + [entry(refs[|refs| - 1], |refs| - 1, clock)]
  }

  function Prefix(s: seq<string>, n: nat): seq<string>
  {
    s[..Min(n, |s|)]
  }

  lemma PrefixLength(s: seq<string>, n: nat)
    requires |s| >= 1 && n >= 1
    ensures |Prefix(s, n)| == Min(n, |s|) && 1 <= |Prefix(s, n)| <= n
  {
  }

  /** The simulated timeline, in generation order. */
  function Timeline(htmlUtf8Length: nat, cssMatches: seq<string>, jsMatches: seq<string>,
                    imageMatches: seq<string>): seq<Resource>
  {
    [DocumentEntry(htmlUtf8Length)] +
    Rows(Prefix(References(cssMatches, "style.css"), 5), 400, StylesheetEntry) +
    Rows(Prefix(References(jsMatches, "script.js"), 8), 900, ScriptEntry) +
    Rows(Prefix(References(imageMatches, "image.jpg"), 10), 1900, ImageEntry)
  }

  function StartKey(r: Resource): (int, int)
  {
    (r.startTime, 0)
  }

  /** `_generate_waterfall_data`: the document, then up to 5 stylesheets, 8
      scripts and 10 images on a clock advanced by 400, 500 and 1000 ms, sorted
      by start time. The sort leaves generation order unchanged. */
  method GenerateWaterfall(htmlUtf8Length: nat, cssMatches: seq<string>, jsMatches: seq<string>,
                           imageMatches: seq<string>) returns (resources: seq<Resource>)
    ensures resources == Timeline(htmlUtf8Length, cssMatches, jsMatches, imageMatches)
    ensures SortedBy(resources, StartKey)
  {
    resources := GenerateUnsorted(htmlUtf8Length, cssMatches, jsMatches, imageMatches);
    TimelineSortedIsFixed(htmlUtf8Length, cssMatches, jsMatches, imageMatches);
    resources := Sort(resources, StartKey);
  }

  /** The generation steps of `_generate_waterfall_data`, before the sort. */
  method GenerateUnsorted(htmlUtf8Length: nat, cssMatches: seq<string>, jsMatches: seq<string>,
                          imageMatches: seq<string>) returns (resources: seq<Resource>)
    ensures resources == Timeline(htmlUtf8Length, cssMatches, jsMatches, imageMatches)
  {
    var currentTime := 0;
    var document := CreateResource(Document, "index.html", EstimateHtmlSize(htmlUtf8Length), currentTime, 50, 100, 50, 200);
    resources := [document];
    currentTime := currentTime + 400;
    var css := Prefix(References(cssMatches, "style.css"), 5);
    assert currentTime == 400;
    resources := AddStylesheets(resources, css, currentTime);
    currentTime := currentTime + 500;
    var js := Prefix(References(jsMatches, "script.js"), 8);
    assert currentTime == 900;
    resources := AddScripts(resources, js, currentTime);
    currentTime := currentTime + 1000;
    var images := Prefix(References(imageMatches, "image.jpg"), 10);
    assert currentTime == 1900;
    resources := AddImages(resources, images, currentTime);
    assert document == DocumentEntry(htmlUtf8Length);
  }

  /** The stylesheet loop of `_generate_waterfall_data`. */
  method AddStylesheets(resources: seq<Resource>, css: seq<string>, currentTime: int) returns (out: seq<Resource>)
    ensures out == resources + Rows(css, currentTime, StylesheetEntry)
  {
    out := resources;
    var i := 0;
    while i < |css|
      invariant 0 <= i <= |css|
      invariant out == resources + Rows(css[..i], currentTime, StylesheetEntry)
    {
      var entry := CreateResource(Stylesheet, NameOr(css[i], "style.css"), 30000 + i * 5000,
                                  currentTime + i * 50, 30, 80, 30, 100);
      assert css[..i + 1][..i] == css[..i];
      assert entry == StylesheetEntry(css[i], i, currentTime);
      assert css[..i + 1][i] == css[i];
      assert Rows(css[..i + 1], currentTime, StylesheetEntry) == Rows(css[..i], currentTime, StylesheetEntry) + [StylesheetEntry(css[i], i, currentTime)];
      out := out + [entry];
      i := i + 1;
    }
    assert css[..i] == css;
  }

  /** The script loop of `_generate_waterfall_data`. */
  method AddScripts(resources: seq<Resource>, js: seq<string>, currentTime: int) returns (out: seq<Resource>)
    ensures out == resources + Rows(js, currentTime, ScriptEntry)
  {
    out := resources;
    var i := 0;
    while i < |js|
      invariant 0 <= i <= |js|
      invariant out == resources + Rows(js[..i], currentTime, ScriptEntry)
    {
      var entry := CreateResource(Script, NameOr(js[i], ScriptName(i)),
                                  50000 + i * 10000, currentTime + i * 100, 20, 60, 20, 150);
      assert js[..i + 1][..i] == js[..i];
      assert entry == ScriptEntry(js[i], i, currentTime);
      assert js[..i + 1][i] == js[i];
      assert Rows(js[..i + 1], currentTime, ScriptEntry) == Rows(js[..i], currentTime, ScriptEntry) + [ScriptEntry(js[i], i, currentTime)];
      out := out + [entry];
      i := i + 1;
    }
    assert js[..i] == js;
  }

  /** The image loop of `_generate_waterfall_data`. */
  method AddImages(resources: seq<Resource>, images: seq<string>, currentTime: int) returns (out: seq<Resource>)
    ensures out == resources + Rows(images, currentTime, ImageEntry)
  {
    out := resources;
    var i := 0;
    while i < |images|
      invariant 0 <= i <= |images|
      invariant out == resources + Rows(images[..i], currentTime, ImageEntry)
    {
      var entry := CreateResource(Image, NameOr(images[i], ImageName(i)),
                                  100000 + i * 50000, currentTime + i * 200, 10, 50, 10, 200 + i * 50);
      assert images[..i + 1][..i] == images[..i];
      assert entry == ImageEntry(images[i], i, currentTime);
      assert images[..i + 1][i] == images[i];
      assert Rows(images[..i + 1], currentTime, ImageEntry) == Rows(images[..i], currentTime, ImageEntry) + [ImageEntry(images[i], i, currentTime)];
      out := out + [entry];
      i := i + 1;
    }
    assert images[..i] == images;
  }

  // ---------------------------------------------------------------------------
  // Shape of the timeline

  lemma {:induction false} RowsSpec(refs: seq<string>, clock: int, entry: (string, nat, int) -> Resource)
    ensures forall k :: 0 <= k < |refs| ==> Rows(refs, clock, entry)[k] == entry(refs[k], k, clock)
  {
    if refs != [] {
      var n := |refs| - 1;
      RowsSpec(refs[..n], clock, entry);
      var r := Rows(refs, clock, entry);
      forall k | 0 <= k < n
        ensures r[k] == entry(refs[k], k, clock)
      {
        assert refs[..n][k] == refs[k];
        assert r[k] == Rows(refs[..n], clock, entry)[k];
      }
    }
  }

  predicate Within(rs: seq<Resource>, lo: int, hi: int)
  {
    forall k :: 0 <= k < |rs| ==> lo <= rs[k].startTime <= hi
  }

  predicate AllWellFormed(rs: seq<Resource>)
  {
    forall k :: 0 <= k < |rs| ==> WellFormed(rs[k])
  }

  /** A run of rows of one type, sorted by start time, all well formed and
      starting between `lo` and `hi`. */
  predicate Run(rs: seq<Resource>, t: ResourceType, lo: int, hi: int)
  {
    SortedBy(rs, StartKey) && Within(rs, lo, hi) && AllWellFormed(rs) &&
    forall k :: 0 <= k < |rs| ==> rs[k].rtype == t
  }

  lemma StylesheetsRun(refs: seq<string>)
    requires |refs| <= 5
    ensures Run(Rows(refs, 400, StylesheetEntry), Stylesheet, 400, 600)
  {
    RowsSpec(refs, 400, StylesheetEntry);
    var r := Rows(refs, 400, StylesheetEntry);
    assert forall k :: 0 <= k < |r| ==> r[k].startTime == 400 + 50 * k;
  }

  lemma ScriptsRun(refs: seq<string>)
    requires |refs| <= 8
    ensures Run(Rows(refs, 900, ScriptEntry), Script, 900, 1600)
  {
    RowsSpec(refs, 900, ScriptEntry);
    var r := Rows(refs, 900, ScriptEntry);
    assert forall k :: 0 <= k < |r| ==> r[k].startTime == 900 + 100 * k;
  }

  lemma ImagesRun(refs: seq<string>)
    requires |refs| <= 10
    ensures Run(Rows(refs, 1900, ImageEntry), Image, 1900, 3700)
  {
    RowsSpec(refs, 1900, ImageEntry);
    var r := Rows(refs, 1900, ImageEntry);
    assert forall k :: 0 <= k < |r| ==> r[k].startTime == 1900 + 200 * k;
  }

  /** Joining a sorted run that starts no later than `mid` to one that starts no
      earlier stays sorted. */
  lemma SortedConcat(a: seq<Resource>, b: seq<Resource>, lo: int, mid: int, hi: int)
    requires lo <= mid <= hi
    requires SortedBy(a, StartKey) && SortedBy(b, StartKey)
    requires Within(a, lo, mid) && Within(b, mid, hi)
    requires AllWellFormed(a) && AllWellFormed(b)
    ensures SortedBy(a + b, StartKey) && Within(a + b, lo, hi) && AllWellFormed(a + b)
  {
    var s := a + b;
    forall i, j | 0 <= i < j < |s|
      ensures KeyLe(StartKey(s[i]), StartKey(s[j]))
    {
      if j < |a| {
        assert s[i] == a[i] && s[j] == a[j];
      } else if i >= |a| {
        assert s[i] == b[i - |a|] && s[j] == b[j - |a|];
      } else {
        assert s[i] == a[i] && s[j] == b[j - |a|];
      }
    }
    forall k | 0 <= k < |s|
      ensures lo <= s[k].startTime <= hi && WellFormed(s[k])
    {
      if k < |a| {
        assert s[k] == a[k];
      } else {
        assert s[k] == b[k - |a|];
      }
    }
  }

  /** Stylesheet i starts at 400 + 50i, script i at 900 + 100i, image i at
      1900 + 200i; the timeline is therefore ordered by start time, and every
      row keeps the resource invariants. */
  lemma TimelineSorted(htmlUtf8Length: nat, cssMatches: seq<string>, jsMatches: seq<string>,
                       imageMatches: seq<string>)
    ensures SortedBy(Timeline(htmlUtf8Length, cssMatches, jsMatches, imageMatches), StartKey)
    ensures AllWellFormed(Timeline(htmlUtf8Length, cssMatches, jsMatches, imageMatches))
  {
    var css := Prefix(References(cssMatches, "style.css"), 5);
    var js := Prefix(References(jsMatches, "script.js"), 8);
    var images := Prefix(References(imageMatches, "image.jpg"), 10);
    StylesheetsRun(css);
    ScriptsRun(js);
    ImagesRun(images);
    var d, c, s, m := [DocumentEntry(htmlUtf8Length)], Rows(css, 400, StylesheetEntry), Rows(js, 900, ScriptEntry), Rows(images, 1900, ImageEntry);
    assert Run(d, Document, 0, 0);
    SortedConcat(d, c, 0, 400, 600);
    SortedConcat(d + c, s, 0, 900, 1600);
    SortedConcat(d + c + s, m, 0, 1900, 3700);
  }

  /** Sorting the timeline by start time gives it back unchanged. */
  lemma TimelineSortedIsFixed(htmlUtf8Length: nat, cssMatches: seq<string>, jsMatches: seq<string>,
                              imageMatches: seq<string>)
    ensures var t := Timeline(htmlUtf8Length, cssMatches, jsMatches, imageMatches);
            Sort(t, StartKey) == t && SortedBy(t, StartKey)
  {
    TimelineSorted(htmlUtf8Length, cssMatches, jsMatches, imageMatches);
    SortOfSorted(Timeline(htmlUtf8Length, cssMatches, jsMatches, imageMatches), StartKey);
  }

  predicate IsDocument(r: Resource) { r.rtype == Document }

  /** A run without documents adds no document to the count. */
  lemma NoDocuments(rs: seq<Resource>, t: ResourceType)
    requires t != Document
    requires forall k :: 0 <= k < |rs| ==> rs[k].rtype == t
    ensures CountWhere(rs, IsDocument) == 0
  {
    CountWhereZero(rs, IsDocument);
  }

  /** Exactly one document, first and at time 0; one row per kept reference,
      between 4 and 24 rows in all. */
  lemma TimelineShape(htmlUtf8Length: nat, cssMatches: seq<string>, jsMatches: seq<string>,
                      imageMatches: seq<string>)
    ensures var t := Timeline(htmlUtf8Length, cssMatches, jsMatches, imageMatches);
            4 <= |t| <= 24 &&
            |t| == 1 + Min(5, |References(cssMatches, "style.css")|) +
                   Min(8, |References(jsMatches, "script.js")|) +
                   Min(10, |References(imageMatches, "image.jpg")|) &&
            t[0].rtype == Document && t[0].startTime == 0 && t[0].name == "index.html" &&
            CountWhere(t, IsDocument) == 1
  {
    var css := Prefix(References(cssMatches, "style.css"), 5);
    var js := Prefix(References(jsMatches, "script.js"), 8);
    var images := Prefix(References(imageMatches, "image.jpg"), 10);
    var d, c, s, m := [DocumentEntry(htmlUtf8Length)], Rows(css, 400, StylesheetEntry), Rows(js, 900, ScriptEntry), Rows(images, 1900, ImageEntry);
    var t := Timeline(htmlUtf8Length, cssMatches, jsMatches, imageMatches);
    assert t == d + c + s + m;
    assert |t| == 1 + |css| + |js| + |images|;
    PrefixLength(References(cssMatches, "style.css"), 5);
    PrefixLength(References(jsMatches, "script.js"), 8);
    PrefixLength(References(imageMatches, "image.jpg"), 10);
    RowsSpec(css, 400, StylesheetEntry);
    NoDocuments(c, Stylesheet);
    RowsSpec(js, 900, ScriptEntry);
    NoDocuments(s, Script);
    RowsSpec(images, 1900, ImageEntry);
    NoDocuments(m, Image);
    assert CountWhere(d, IsDocument) == 1 by {
      assert d[..0] == [];
    }
    CountWhereAppend(d, c, IsDocument);
    CountWhereAppend(d + c, s, IsDocument);
    CountWhereAppend(d + c + s, m, IsDocument);
  }

  // ---------------------------------------------------------------------------
  // Metrics

  datatype TypeTotals = TypeTotals(count: nat, size: int, time: int)

  datatype WaterfallMetrics =
    | NoMetrics
    | Metrics(
        totalRequests: nat,
        totalSize: int,
        totalTimeMs: int,
        pageLoadTimeMs: int,
        byType: map<ResourceType, TypeTotals>)

  function Size(r: Resource): int { r.size }

  function TotalTime(r: Resource): int { r.totalTime }

  /** The latest end time. */
  function MaxEnd(data: seq<Resource>): (m: int)
    requires data != []
    ensures forall k :: 0 <= k < |data| ==> data[k].endTime <= m
    ensures exists k :: 0 <= k < |data| && data[k].endTime == m
  {
    if |data| == 1 then data[0].endTime
    else
      var rest := MaxEnd(data[..|data| - 1]);
      assert forall k :: 0 <= k < |data| - 1 ==> data[..|data| - 1][k] == data[k];
      Max(rest, data[|data| - 1].endTime)
  }

  function TotalsOf(byType: map<ResourceType, TypeTotals>, t: ResourceType): TypeTotals
  {
    if t in byType then byType[t] else TypeTotals(0, 0, 0)
  }

  /** The `by_type` table after the rows of `data`, one bump per row. */
  function ByType(data: seq<Resource>): map<ResourceType, TypeTotals>
  {
    if data == [] then map[]
    else
      var byType := ByType(data[..|data| - 1]);
      var r := data[|data| - 1];
      var old_ := TotalsOf(byType, r.rtype);
      byType[r.rtype := TypeTotals(old_.count + 1, old_.size + r.size, old_.time + r.totalTime)]
  }

  /** `_calculate_waterfall_metrics` (rounded kilobyte figures and the
      critical-path estimate are not kept). */
  method CalculateWaterfallMetrics(data: seq<Resource>) returns (m: WaterfallMetrics)
    ensures data == [] <==> m == NoMetrics
    ensures data != [] ==>
              m.totalRequests == |data| && m.totalSize == SumOf(data, Size) &&
              m.totalTimeMs == MaxEnd(data) && m.pageLoadTimeMs == MaxEnd(data) &&
              m.byType == ByType(data)
  {
    if data == [] {
      return NoMetrics;
    }
    var totalTime := MaxEnd(data);
    var byType: map<ResourceType, TypeTotals> := map[];
    var k := 0;
    while k < |data|
      invariant 0 <= k <= |data|
      invariant byType == ByType(data[..k])
    {
      assert data[..k + 1][..k] == data[..k];
      var resource := data[k];
      var typeName := resource.rtype;
      if typeName !in byType {
        byType := byType[typeName := TypeTotals(0, 0, 0)];
      }
      var entry := byType[typeName];
      byType := byType[typeName := TypeTotals(entry.count + 1, entry.size + resource.size,
                                              entry.time + resource.totalTime)];
      k := k + 1;
    }
    assert data[..k] == data;
    m := Metrics(|data|, SumOf(data, Size), totalTime, totalTime, byType);
  }

  /** The per-type counts add up to the number of rows, and the per-type sizes
      and times to the overall sums. */
  lemma {:induction false} ByTypeTotals(data: seq<Resource>)
    ensures var b := ByType(data);
            TotalsOf(b, Document).count + TotalsOf(b, Stylesheet).count +
            TotalsOf(b, Script).count + TotalsOf(b, Image).count == |data| &&
            TotalsOf(b, Document).size + TotalsOf(b, Stylesheet).size +
            TotalsOf(b, Script).size + TotalsOf(b, Image).size == SumOf(data, Size) &&
            TotalsOf(b, Document).time + TotalsOf(b, Stylesheet).time +
            TotalsOf(b, Script).time + TotalsOf(b, Image).time == SumOf(data, TotalTime)
  {
    if data != [] {
      var init, r := data[..|data| - 1], data[|data| - 1];
      ByTypeTotals(init);
      var before, after := ByType(init), ByType(data);
      forall t | t != r.rtype
        ensures TotalsOf(after, t) == TotalsOf(before, t)
      {
      }
      assert TotalsOf(after, r.rtype).count == TotalsOf(before, r.rtype).count + 1;
      assert TotalsOf(after, r.rtype).size == TotalsOf(before, r.rtype).size + r.size;
      assert TotalsOf(after, r.rtype).time == TotalsOf(before, r.rtype).time + r.totalTime;
      assert SumOf(data, Size) == SumOf(init, Size) + r.size;
      assert SumOf(data, TotalTime) == SumOf(init, TotalTime) + r.totalTime;
    }
  }

  /** A type has an entry exactly when some row has that type. */
  lemma {:induction false} ByTypeKeys(data: seq<Resource>, t: ResourceType)
    ensures t in ByType(data) <==> exists k :: 0 <= k < |data| && data[k].rtype == t
  {
    if data != [] {
      var init := data[..|data| - 1];
      ByTypeKeys(init, t);
      if t in ByType(init) {
        var k :| 0 <= k < |init| && init[k].rtype == t;
        assert data[k] == init[k];
      }
      if exists k :: 0 <= k < |data| && data[k].rtype == t {
        var k :| 0 <= k < |data| && data[k].rtype == t;
        if k < |init| {
          assert init[k] == data[k];
        }
      }
    }
  }

  // ---------------------------------------------------------------------------
  // Score

  predicate IsSlow(r: Resource) { r.totalTime > 500 }

  /** The score the steps of `_calculate_waterfall_score` arrive at. */
  function WaterfallScore(data: seq<Resource>): (score: int)
    ensures 0 <= score <= 100
    ensures data == [] ==> score == 50
  {
    if data == [] then 50
    else
      var size := SumOf(data, Size);
      Max(0, 100 - Min(30, CountWhere(data, IsSlow) * 5)
             - (if size > 2000 * 1024 then 20 else if size > 1000 * 1024 then 10 else 0)
             - (if |data| > 100 then 20 else if |data| > 50 then 10 else 0))
  }

  /** `_calculate_waterfall_score`. */
  method CalculateWaterfallScore(data: seq<Resource>) returns (score: int)
    ensures score == WaterfallScore(data)
    ensures 0 <= score <= 100
  {
    if data == [] {
      return 50;
    }
    score := 100;
    var slowResources := CountWhere(data, IsSlow);
    score := score - Min(30, slowResources * 5);
    var totalSize := SumOf(data, Size);
    if totalSize > 2000 * 1024 {
      score := score - 20;
    } else if totalSize > 1000 * 1024 {
      score := score - 10;
    }
    if |data| > 100 {
      score := score - 20;
    } else if |data| > 50 {
      score := score - 10;
    }
    score := Max(0, score);
  }

  /** Adding a row of non-negative size to a non-empty waterfall never raises its score. */
  lemma ScoreAntitone(data: seq<Resource>, r: Resource)
    requires data != [] && r.size >= 0
    ensures WaterfallScore(data + [r]) <= WaterfallScore(data)
  {
    assert (data + [r])[..|data|] == data;
  }
}
