/** The indexing hook: for each uploaded object named in a queue event it
    takes the (bucket, key, size) tuple of the first storage record, keeps
    the text files and the image files by extension, and puts each kind into
    its own index with an index, a mapping and a bulk request. */
module LambdaEsIndexing {
  import opened Wrappers
  import opened Json
  import opened Http
  import opened S3
  import Strings
  import opened EsClient

  const TextfileTypes: set<string> := {"pdf", "txt"}
  const ImagefileTypes: set<string> := {"jpg", "jpeg", "png", "bmp", "gif"}

  /** `key.split('.')[-1]`. */
  function Extension(key: string): string
  {
    var parts := Strings.Split(key, '.');
    parts[|parts| - 1]
  }

  /** What follows the dot of `p + "." + e` is `e`. */
  lemma DotSuffix(p: string, e: string)
    ensures var s := p + "." + e; s[|s| - |e|..] == e && s[|s| - |e| - 1] == '.'
  {
    var s := p + "." + e;
    assert s[|p| + 1..] == e;
  }

  /** A key with a dot is the parts before its last dot, the dot, and the
      extension. */
  lemma ExtensionAfterLastDot(key: string)
    requires |Strings.Split(key, '.')| > 1
    ensures var parts := Strings.Split(key, '.');
      key == Strings.Join(".", parts[..|parts| - 1]) + "." + Extension(key)
  {
    var parts := Strings.Split(key, '.');
    var n := |parts|;
    Strings.JoinSplit(key, '.');
    Strings.JoinConcat(".", parts[..n - 1], [parts[n - 1]]);
    assert parts[..n - 1] + [parts[n - 1]] == parts;
  }

  /** The extension is the longest dot-free suffix of the key: the whole key
      when it has no dot, else what follows its last dot. */
  lemma ExtensionSuffix(key: string)
    ensures var e := Extension(key);
      && '.' !in e && |e| <= |key| && key[|key| - |e|..] == e
      && (|e| < |key| ==> key[|key| - |e| - 1] == '.')
  {
    var parts := Strings.Split(key, '.');
    if |parts| == 1 {
      Strings.JoinSplit(key, '.');
    } else {
      ExtensionAfterLastDot(key);
      DotSuffix(Strings.Join(".", parts[..|parts| - 1]), Extension(key));
    }
  }

  /** A dot-free name, a dot and a dot-free extension. */
  lemma ExtensionAfterDot(name: string, e: string)
    requires '.' !in name && '.' !in e
    ensures Extension(name + "." + e) == e
  {
    Strings.SplitAfterPart(name, e, '.');
    Strings.SplitOfSeparatorFree(e, '.');
  }

  /** `list(filter(lambda x: ext(x[1]) in types, tuples))`. */
  function Keep(ts: seq<S3Tuple>, types: set<string>): (r: seq<S3Tuple>)
    ensures |r| <= |ts|
    ensures forall t :: t in r <==> t in ts && Extension(t.key) in types
  {
    if |ts| == 0 then []
    else
      var rest := Keep(ts[1..], types);
      assert forall t :: t in ts <==> t == ts[0] || t in ts[1..];
      (if Extension(ts[0].key) in types then [ts[0]] else []) + rest
  }

  /** Filtering keeps the order: it distributes over concatenation. */
  lemma {:induction false} KeepAppend(a: seq<S3Tuple>, b: seq<S3Tuple>, types: set<string>)
    ensures Keep(a + b, types) == Keep(a, types) + Keep(b, types)
  {
    if |a| == 0 {
      assert a + b == b;
    } else {
      KeepAppend(a[1..], b, types);
      assert (a + b)[0] == a[0] && (a + b)[1..] == a[1..] + b;
      var head := if Extension(a[0].key) in types then [a[0]] else [];
      assert Keep(a + b, types) == head + Keep(a[1..] + b, types);
      AppendAssoc(head, Keep(a[1..], types), Keep(b, types));
    }
  }

  /** No tuple goes to both indexes. */
  lemma StreamsDisjoint(ts: seq<S3Tuple>)
    ensures forall t :: !(t in Keep(ts, TextfileTypes) && t in Keep(ts, ImagefileTypes))
  {
    assert TextfileTypes * ImagefileTypes == {};
  }

  /** A tuple whose extension is neither a text nor an image type goes to
      neither index; a Word document and an upper-case PDF are two. */
  lemma UnsupportedDropped(ts: seq<S3Tuple>, t: S3Tuple)
    requires Extension(t.key) !in TextfileTypes + ImagefileTypes
    ensures t !in Keep(ts, TextfileTypes) && t !in Keep(ts, ImagefileTypes)
  {
  }

  lemma DocxAndUpperCaseDropped()
    ensures Extension("report" + "." + "docx") == "docx" && "docx" !in TextfileTypes + ImagefileTypes
    ensures Extension("scan" + "." + "PDF") == "PDF" && "PDF" !in TextfileTypes + ImagefileTypes
  {
    ExtensionAfterDot("report", "docx");
    ExtensionAfterDot("scan", "PDF");
  }

  /** The ids of a stream, one per tuple in order. */
  function Pids(ts: seq<S3Tuple>): (r: seq<Value>)
    ensures |r| == |ts| && forall i :: 0 <= i < |ts| ==> r[i] == JStr(CreatePid(ts[i]))
  {
    seq(|ts|, i requires 0 <= i < |ts| => JStr(CreatePid(ts[i])))
  }

  /** The text documents of a stream: the key as title, its extension and the
      extracted text, one per tuple in order. */
  function TextDocs(ts: seq<S3Tuple>, textOf: S3Tuple -> string): (r: seq<Value>)
    ensures |r| == |ts|
    ensures forall i :: 0 <= i < |ts| ==>
      r[i] == TextDocEntry(ts[i].key, Extension(ts[i].key), ts[i], textOf(ts[i]))
  {
    seq(|ts|, i requires 0 <= i < |ts| => TextDocEntry(ts[i].key, Extension(ts[i].key), ts[i], textOf(ts[i])))
  }

  /** The image documents of a stream: the celebrities, then the texts, then
      the labels detected in each image as its tags. */
  function ImageDocs(ts: seq<S3Tuple>, labelsOf: S3Tuple -> seq<string>, textsOf: S3Tuple -> seq<string>,
                     celebsOf: S3Tuple -> seq<string>): (r: seq<Value>)
    ensures |r| == |ts|
    ensures forall i :: 0 <= i < |ts| ==>
      r[i] == ImageDocValue(Extension(ts[i].key), ts[i], celebsOf(ts[i]) + textsOf(ts[i]) + labelsOf(ts[i]))
  {
    seq(|ts|, i requires 0 <= i < |ts| =>
      ImageDocValue(Extension(ts[i].key), ts[i], celebsOf(ts[i]) + textsOf(ts[i]) + labelsOf(ts[i])))
  }

  /** One index's stage: create the index (an existing one is fine), put
      the mapping, then bulk-put the documents. */
  function Stage(client: ESClient, pids: seq<Value>, docs: seq<Value>): (calls: seq<Call>)
    requires |pids| == |docs|
    ensures |calls| == 3
  {
    [client.PutIndex(true), client.PutMapping(), client.PutDocumentBulk(pids, docs).value]
  }

  /** The text stage when there is a text file, else nothing. */
  function TextPlan(tx: ESClient, ts: seq<S3Tuple>, textOf: S3Tuple -> string): seq<Call>
  {
    var text := Keep(ts, TextfileTypes);
    if |text| > 0 then Stage(tx, Pids(text), TextDocs(text, textOf)) else []
  }

  /** The image stage when there is an image file, else nothing. */
  function ImagePlan(im: ESClient, ts: seq<S3Tuple>, labelsOf: S3Tuple -> seq<string>,
                     textsOf: S3Tuple -> seq<string>, celebsOf: S3Tuple -> seq<string>): seq<Call>
  {
    var image := Keep(ts, ImagefileTypes);
    if |image| > 0 then Stage(im, Pids(image), ImageDocs(image, labelsOf, textsOf, celebsOf)) else []
  }

  /** The calls `dispatcher` makes: the text stage, then the image stage. */
  function Plan(tx: ESClient, im: ESClient, ts: seq<S3Tuple>, textOf: S3Tuple -> string,
                labelsOf: S3Tuple -> seq<string>, textsOf: S3Tuple -> seq<string>,
                celebsOf: S3Tuple -> seq<string>): seq<Call>
  {
    TextPlan(tx, ts, textOf) + ImagePlan(im, ts, labelsOf, textsOf, celebsOf)
  }

  /** Each stage that runs sends three requests. */
  lemma PlanLength(tx: ESClient, im: ESClient, ts: seq<S3Tuple>, textOf: S3Tuple -> string,
                   labelsOf: S3Tuple -> seq<string>, textsOf: S3Tuple -> seq<string>,
                   celebsOf: S3Tuple -> seq<string>)
    ensures |Plan(tx, im, ts, textOf, labelsOf, textsOf, celebsOf)| ==
      (if |Keep(ts, TextfileTypes)| > 0 then 3 else 0) + (if |Keep(ts, ImagefileTypes)| > 0 then 3 else 0)
  {
  }

  /** The text stage runs exactly when a text file is present, and sends the
      text client's index, mapping and a bulk payload of one id and one
      document per text file, in order. */
  lemma TextStageShape(tx: ESClient, im: ESClient, ts: seq<S3Tuple>, textOf: S3Tuple -> string,
                       labelsOf: S3Tuple -> seq<string>, textsOf: S3Tuple -> seq<string>,
                       celebsOf: S3Tuple -> seq<string>)
    ensures var plan := Plan(tx, im, ts, textOf, labelsOf, textsOf, celebsOf);
      var text := Keep(ts, TextfileTypes);
      |text| > 0 ==>
        && |plan| >= 3
        && plan[0] == tx.PutIndex(true) && plan[1] == tx.PutMapping()
        && plan[2].request.payload ==
             NdjsonPayload(BulkCreatePayload(tx.index, tx.docType, Pids(text), TextDocs(text, textOf)))
  {
  }

  /** A text document is titled by its object key and carries the key's
      extension and the extracted text. */
  lemma TextDocsTitled(ts: seq<S3Tuple>, textOf: S3Tuple -> string, i: nat)
    requires i < |ts|
    ensures var d := TextDocs(ts, textOf)[i];
      && d.JObj?
      && Lookup(d.members, "title") == Some(JStr(ts[i].key))
      && Lookup(d.members, "extension") == Some(JStr(Extension(ts[i].key)))
      && Lookup(d.members, "content") == Some(JStr(textOf(ts[i])))
  {
    TextDocEntryFields(ts[i].key, Extension(ts[i].key), ts[i], textOf(ts[i]));
  }

  /** The image stage runs exactly when an image file is present, after the
      text stage, with one id and one document per image file, in order. */
  lemma ImageStageShape(tx: ESClient, im: ESClient, ts: seq<S3Tuple>, textOf: S3Tuple -> string,
                        labelsOf: S3Tuple -> seq<string>, textsOf: S3Tuple -> seq<string>,
                        celebsOf: S3Tuple -> seq<string>)
    ensures var plan := Plan(tx, im, ts, textOf, labelsOf, textsOf, celebsOf);
      var image := Keep(ts, ImagefileTypes);
      var k := if |Keep(ts, TextfileTypes)| > 0 then 3 else 0;
      |image| > 0 ==>
        && |plan| == k + 3
        && plan[k] == im.PutIndex(true) && plan[k + 1] == im.PutMapping()
        && plan[k + 2].request.payload ==
             NdjsonPayload(BulkCreatePayload(im.index, im.docType, Pids(image),
                                             ImageDocs(image, labelsOf, textsOf, celebsOf)))
  {
  }

  /** A stream of tuples none of which has one of the types filters to nothing. */
  lemma {:induction false} KeepNone(ts: seq<S3Tuple>, types: set<string>)
    requires forall i :: 0 <= i < |ts| ==> Extension(ts[i].key) !in types
    ensures Keep(ts, types) == []
  {
    if |ts| > 0 {
      assert forall i :: 0 <= i < |ts[1..]| ==> ts[1..][i] == ts[i + 1];
      KeepNone(ts[1..], types);
    }
  }

  /** Without a supported file nothing is sent. */
  lemma NothingToIndex(tx: ESClient, im: ESClient, ts: seq<S3Tuple>, textOf: S3Tuple -> string,
                       labelsOf: S3Tuple -> seq<string>, textsOf: S3Tuple -> seq<string>,
                       celebsOf: S3Tuple -> seq<string>)
    requires forall i :: 0 <= i < |ts| ==> Extension(ts[i].key) !in TextfileTypes + ImagefileTypes
    ensures Plan(tx, im, ts, textOf, labelsOf, textsOf, celebsOf) == []
  {
    KeepNone(ts, TextfileTypes);
    KeepNone(ts, ImagefileTypes);
  }

  /** Two runs in sequence, the second only after the first succeeded,
      log what one run of both lists logs, and succeed when it does. */
  lemma Sequenced(log0: seq<Call>, log1: seq<Call>, log2: seq<Call>, first: seq<Call>, second: seq<Call>,
                  server: Request -> Response, ok1: bool, ok2: bool)
    requires log1 == log0 + Issued(first, server) && (ok1 <==> Execute(first, server).Ok?)
    requires ok1 ==> log2 == log1 + Issued(second, server) && (ok2 <==> Execute(second, server).Ok?)
    requires !ok1 ==> log2 == log1 && !ok2
    ensures log2 == log0 + Issued(first + second, server)
    ensures ok2 <==> Execute(first + second, server).Ok?
  {
    ExecuteAppend(first, second, server);
    IssuedAppend(first, second, server);
    if ok1 {
      AppendAssoc(log0, first, Issued(second, server));
    }
  }

  /** Subscripting with each key in turn, `j[k0][k1]...`, stopping at the
      first exception. */
  function Subscripts(j: Value, keys: seq<string>): (r: Result<Value, PyError>)
    decreases |keys|
  {
    if |keys| == 0 then Ok(j)
    else match Index(j, keys[0])
      case Err(e) => Err(e)
      case Ok(v) => Subscripts(v, keys[1..])
  }

  /** Subscripting succeeds exactly when the path exists, and then reaches
      the value at the end of the path. */
  lemma {:induction false} SubscriptsPath(j: Value, keys: seq<string>)
    ensures Subscripts(j, keys).Ok? <==> Path(j, keys).Some?
    ensures Subscripts(j, keys).Ok? ==> Path(j, keys) == Some(Subscripts(j, keys).value)
    decreases |keys|
  {
    if |keys| > 0 && j.JObj? && Lookup(j.members, keys[0]).Some? {
      SubscriptsPath(Lookup(j.members, keys[0]).value, keys[1..]);
    }
  }

  /** `x[0]` on the value under "Records": the first item of a list; an
      IndexError for an empty list or string; otherwise a TypeError, raised
      here or, for a one-character string, by the next subscript. */
  function First(j: Value): (r: Result<Value, PyError>)
    ensures r.Ok? <==> j.JArr? && |j.items| > 0
    ensures r.Ok? ==> r.value == j.items[0]
  {
    match j
    case JArr(items) => At(j, 0)
    case JStr(s) => if |s| == 0 then Err(IndexError) else Err(TypeError)
    case _ => Err(TypeError)
  }

  /** The tuple of one storage record: its bucket name, object key and
      object size, subscripted in that order. */
  function RecordFields(rec: Value): (r: Result<S3Tuple, PyError>)
  {
    match Subscripts(rec, ["s3", "bucket", "name"])
    case Err(e) => Err(e)
    case Ok(name) =>
      match Subscripts(rec, ["s3", "object", "key"])
      case Err(e) => Err(e)
      case Ok(key) =>
        match Subscripts(rec, ["s3", "object", "size"])
        case Err(e) => Err(e)
        case Ok(size) =>
          if name.JStr? && key.JStr? && size.JInt? then Ok(S3Tuple(name.s, key.s, size.n))
          else Err(TypeError)
  }

  /** The tuple of one queue message: that of the first storage record in
      its body. */
  function RecordTuple(x: Value): (r: Result<S3Tuple, PyError>)
  {
    match Subscripts(x, ["body", "Records"])
    case Err(e) => Err(e)
    case Ok(records) =>
      match First(records)
      case Err(e) => Err(e)
      case Ok(rec) => RecordFields(rec)
  }

  /** The first storage record in the body of a message names the bucket,
      the object key and the object size of `t`. */
  predicate Describes(x: Value, t: S3Tuple)
  {
    var records := Path(x, ["body", "Records"]);
    && records.Some? && records.value.JArr? && |records.value.items| > 0
    && Path(records.value.items[0], ["s3", "bucket", "name"]) == Some(JStr(t.bucket))
    && Path(records.value.items[0], ["s3", "object", "key"]) == Some(JStr(t.key))
    && Path(records.value.items[0], ["s3", "object", "size"]) == Some(JInt(t.size))
  }

  /** A message maps to a tuple exactly when its first record describes it. */
  lemma RecordTupleDescribes(x: Value, t: S3Tuple)
    ensures RecordTuple(x) == Ok(t) <==> Describes(x, t)
  {
    SubscriptsPath(x, ["body", "Records"]);
    var records := Subscripts(x, ["body", "Records"]);
    if records.Ok? && First(records.value).Ok? {
      var rec := First(records.value).value;
      SubscriptsPath(rec, ["s3", "bucket", "name"]);
      SubscriptsPath(rec, ["s3", "object", "key"]);
      SubscriptsPath(rec, ["s3", "object", "size"]);
    }
  }

  /** The tuples of an event, one per message of `event["Records"]`, in
      order; the first exception raised stops the mapping. */
  function EventTuples(event: Value): (r: Result<seq<S3Tuple>, PyError>)
  {
    match Index(event, "Records")
    case Err(e) => Err(e)
    case Ok(records) => MapIter(RecordTuple, records)
  }

  /** One tuple per message, each from that message's first record; an
      event without "Records" raises a KeyError, and records that are not a
      list give no tuple unless they are empty. */
  lemma EventTuplesPerRecord(event: Value)
    ensures Index(event, "Records").Err? ==> EventTuples(event) == Err(Index(event, "Records").error)
    ensures var records := Index(event, "Records");
      records.Ok? && records.value.JArr? && EventTuples(event).Ok? ==>
        && |EventTuples(event).value| == |records.value.items|
        && forall i :: 0 <= i < |records.value.items| ==> Describes(records.value.items[i], EventTuples(event).value[i])
    ensures var records := Index(event, "Records");
      records.Ok? && !records.value.JArr? && EventTuples(event).Ok? ==> EventTuples(event).value == []
  {
    var records := Index(event, "Records");
    if records.Ok? {
      forall s: string ensures RecordTuple(JStr(s)) == Err(TypeError) {
      }
      MapIterOverStrings(RecordTuple, records.value);
      if records.value.JArr? && EventTuples(event).Ok? {
        forall i | 0 <= i < |records.value.items|
          ensures Describes(records.value.items[i], EventTuples(event).value[i])
        {
          RecordTupleDescribes(records.value.items[i], EventTuples(event).value[i]);
        }
      }
    }
  }

  /** The dict a handler returns. */
  datatype HandlerResponse = HandlerResponse(statusCode: int, body: string)

  const Succeeded := HandlerResponse(200, "Putting documents into elasticsearch successfully.")
  const Failed := HandlerResponse(500, "Putting documents into elasticsearch FAILED.")

  /** The module with its two clients, built once from the configured host,
      port and region, and the log of the requests they have sent. */
  class Indexer {
    const esTx: ESClient
    const esIm: ESClient
    var log: seq<Call>

    constructor (host: string, port: int, region: string)
      ensures esTx.flavour == Textfile && esTx.host == host && esTx.port == port && esTx.endpoint == Endpoint(host, port)
      ensures esTx.index == "textfilesearch" && esTx.docType == "textfile" && esTx.mapping == TextMapping()
      ensures esTx.awsRegion == Some(region)
      ensures esIm.flavour == Imagefile && esIm.host == host && esIm.port == port && esIm.endpoint == Endpoint(host, port)
      ensures esIm.index == "imagefilesearch" && esIm.docType == "imagefile" && esIm.mapping == ImageMapping()
      ensures esIm.awsRegion == Some(region)
      ensures log == []
    {
      esTx := new ESClient.Text(host, port, region);
      esIm := new ESClient.Image(host, port, region);
      log := [];
    }

    /** Sends one request and applies its status check. */
    method Send(call: Call, server: Request -> Response) returns (res: Result<Response, PyError>)
      modifies this
      ensures log == old(log) + [call]
      ensures res == Perform(call, server)
    {
      log := log + [call];
      res := Perform(call, server);
    }

    /** `put_index`, `put_mapping` and `put_document_bulk` on one client, in
      sequence, stopping at the first failed status check. */
    method RunStage(client: ESClient, pids: seq<Value>, docs: seq<Value>, server: Request -> Response)
      returns (ok: bool)
      requires |pids| == |docs|
      modifies this
      ensures log == old(log) + Issued(Stage(client, pids, docs), server)
      ensures ok <==> Execute(Stage(client, pids, docs), server).Ok?
    {
      var bulk := client.PutDocumentBulk(pids, docs);
      IssuedThree(client.PutIndex(true), client.PutMapping(), bulk.value, server);
      var res := Send(client.PutIndex(true), server);
      if res.Err? {
        return false;
      }
      res := Send(client.PutMapping(), server);
      if res.Err? {
        return false;
      }
      res := Send(bulk.value, server);
      ok := res.Ok?;
    }

    /** The text half of `dispatcher`: extracts the text of every text
      file, then runs the text stage if there is one. */
    method RunText(ts: seq<S3Tuple>, textOf: S3Tuple -> string, server: Request -> Response) returns (ok: bool)
      modifies this
      ensures log == old(log) + Issued(TextPlan(esTx, ts, textOf), server)
      ensures ok <==> Execute(TextPlan(esTx, ts, textOf), server).Ok?
    {
      var text := Keep(ts, TextfileTypes);
      if |text| > 0 {
        var texts := seq(|text|, i requires 0 <= i < |text| => textOf(text[i]));
        var pids := Pids(text);
        var docs := seq(|text|, i requires 0 <= i < |text| =>
          TextDocEntry(text[i].key, Extension(text[i].key), text[i], texts[i]));
        assert docs == TextDocs(text, textOf);
        ok := RunStage(esTx, pids, docs, server);
      } else {
        ok := true;
        assert log == old(log) + [];
      }
    }

    /** The image half of `dispatcher`: builds every image document from the
      detected labels, texts and celebrities, then runs the image stage if
      there is one. */
    method RunImage(ts: seq<S3Tuple>, labelsOf: S3Tuple -> seq<string>, textsOf: S3Tuple -> seq<string>,
                    celebsOf: S3Tuple -> seq<string>, server: Request -> Response) returns (ok: bool)
      modifies this
      ensures log == old(log) + Issued(ImagePlan(esIm, ts, labelsOf, textsOf, celebsOf), server)
      ensures ok <==> Execute(ImagePlan(esIm, ts, labelsOf, textsOf, celebsOf), server).Ok?
    {
      var image := Keep(ts, ImagefileTypes);
      if |image| > 0 {
        var pids := Pids(image);
        var docs := ImageDocuments(image, labelsOf, textsOf, celebsOf);
        ok := RunStage(esIm, pids, docs, server);
      } else {
        ok := true;
        assert log == old(log) + [];
      }
    }

    /** `dispatcher`: the text half, then the image half. A failed status
      check ends the run with the exception, so the image stage is not
      reached when the text stage fails, and the log ends at the rejected
      request. */
    method Dispatcher(ts: seq<S3Tuple>, textOf: S3Tuple -> string, labelsOf: S3Tuple -> seq<string>,
                      textsOf: S3Tuple -> seq<string>, celebsOf: S3Tuple -> seq<string>,
                      server: Request -> Response)
      returns (r: Result<HandlerResponse, PyError>)
      modifies this
      ensures var plan := Plan(esTx, esIm, ts, textOf, labelsOf, textsOf, celebsOf);
        && log == old(log) + Issued(plan, server)
        && (r.Ok? <==> Execute(plan, server).Ok?)
        && (r.Ok? ==> r.value == Succeeded)
        && (r.Err? ==> r.error == AssertionError)
    {
      ghost var log0 := log;
      var ok := RunText(ts, textOf, server);
      ghost var log1, ok1 := log, ok;
      if ok {
        ok := RunImage(ts, labelsOf, textsOf, celebsOf, server);
      }
      Sequenced(log0, log1, log, TextPlan(esTx, ts, textOf), ImagePlan(esIm, ts, labelsOf, textsOf, celebsOf),
                server, ok1, ok);
      r := if ok then Ok(Succeeded) else Err(AssertionError);
    }

    /** `lambda_handler`: the tuples of the event, then `dispatcher` on them.
      An exception while building the tuples escapes before anything is
      sent; one raised by `dispatcher` is caught and answered with status
      500. */
    method LambdaHandler(event: Value, textOf: S3Tuple -> string, labelsOf: S3Tuple -> seq<string>,
                         textsOf: S3Tuple -> seq<string>, celebsOf: S3Tuple -> seq<string>,
                         server: Request -> Response)
      returns (r: Result<HandlerResponse, PyError>)
      modifies this
      ensures EventTuples(event).Err? ==> r == Err(EventTuples(event).error) && log == old(log)
      ensures EventTuples(event).Ok? ==>
        var plan := Plan(esTx, esIm, EventTuples(event).value, textOf, labelsOf, textsOf, celebsOf);
        && log == old(log) + Issued(plan, server)
        && r == Ok(if Execute(plan, server).Ok? then Succeeded else Failed)
    {
      var tuples := EventTuples(event);
      if tuples.Err? {
        return Err(tuples.error);
      }
      var res := Dispatcher(tuples.value, textOf, labelsOf, textsOf, celebsOf, server);
      r := if res.Ok? then res else Ok(Failed);
    }
  }

  /** The image documents, built one by one by the image client's
      `create_doc_entry` on fresh lists from the detectors. */
  method ImageDocuments(ts: seq<S3Tuple>, labelsOf: S3Tuple -> seq<string>, textsOf: S3Tuple -> seq<string>,
                        celebsOf: S3Tuple -> seq<string>) returns (docs: seq<Value>)
    ensures docs == ImageDocs(ts, labelsOf, textsOf, celebsOf)
  {
    docs := [];
    for i := 0 to |ts|
      invariant docs == ImageDocs(ts[..i], labelsOf, textsOf, celebsOf)
    {
      var labels := new PyList(labelsOf(ts[i]));
      var texts := new PyList(textsOf(ts[i]));
      var celebs := new PyList(celebsOf(ts[i]));
      var doc := ImageDocEntry(Extension(ts[i].key), ts[i], labels, texts, celebs);
      assert ts[..i + 1] == ts[..i] + [ts[i]];
      docs := docs + [doc];
    }
    assert ts[..|ts|] == ts;
  }
}
