/** The REST client for the search engine: the endpoint rule, the requests
    each operation sends with the statuses it accepts, the newline-delimited
    bulk payloads, and the text-file and image-file document clients. */
module EsClient {
  import opened Wrappers
  import opened Json
  import opened Http
  import opened S3
  import Strings
  import QueryBodies

  /** The endpoint: `host:port`, with a scheme put in front unless the host
      already starts with "http" -- "https://" for port 443 and "http://"
      for any other port. */
  function Endpoint(host: string, port: int): (ep: string)
    ensures Strings.StartsWith(ep, "http")
    ensures var base := host + ":" + Strings.IntToString(port);
      |base| <= |ep| && ep[|ep| - |base|..] == base
  {
    var base := host + ":" + Strings.IntToString(port);
    if Strings.StartsWith(host, "http") then
      assert base[..4] == host[..4];
      base
    else if port == 443 then "https://" + base
    else "http://" + base
  }

  /** The first four characters of `host:port` are "http" exactly when the
      host starts with "http": a shorter host puts the colon among them. */
  lemma JoinedPrefix(host: string, port: int)
    ensures (Strings.PrefixUpTo(host + ":" + Strings.IntToString(port), 4) == "http") <==> Strings.StartsWith(host, "http")
  {
    var e := host + ":" + Strings.IntToString(port);
    if |host| >= 4 {
      assert e[..4] == host[..4];
    } else {
      var p := Strings.PrefixUpTo(e, 4);
      assert |p| > |host| && p[|host|] == ':';
    }
  }

  /** The endpoint computation of the client's initialiser: the joined
      `host:port`, prefixed when its first four characters are not "http". */
  method NormalizeEndpoint(host: string, port: int) returns (ep: string)
    ensures ep == Endpoint(host, port)
  {
    ep := host + ":" + Strings.IntToString(port);
    JoinedPrefix(host, port);
    if Strings.PrefixUpTo(ep, 4) != "http" {
      if port == 443 {
        ep := "https://" + ep;
      } else {
        ep := "http://" + ep;
      }
    }
  }

  /** A host that merely begins with the letters "http" is taken to carry a
      scheme already and gets none. */
  lemma EndpointHostBeginningWithHttp()
    ensures Endpoint("httpbin.org", 80) == "httpbin.org" + ":" + "80"
  {
    assert "httpbin.org"[..4] == "http";
    assert Strings.IntToString(80) == "80";
  }

  /** A bare host on port 443 gets "https://". */
  lemma EndpointSecurePort()
    ensures Endpoint("example.org", 443) == "https://" + "example.org" + ":" + "443"
  {
    assert "example.org"[0] == 'e';
    assert Strings.IntToString(443) == "443";
  }

  /** The default host keeps its own scheme. */
  lemma EndpointDefault()
    ensures Endpoint(DefaultHost, DefaultPort) == "http://localhost" + ":" + "9200"
  {
    assert DefaultHost[..4] == "http";
    assert Strings.IntToString(9200) == "9200";
  }

  /** `{"create": {"_id": pid, "_type": doc_type, "_index": index}}`. */
  function CreateAction(index: string, docType: string, pid: Value): Value
  {
    JObj([("create", JObj([("_id", pid), ("_type", JStr(docType)), ("_index", JStr(index))]))])
  }

  /** `{"delete": {"_id": pid, "_type": doc_type, "_index": index}}`. */
  function DeleteAction(index: string, docType: string, pid: Value): Value
  {
    JObj([("delete", JObj([("_id", pid), ("_type", JStr(docType)), ("_index", JStr(index))]))])
  }

  /** A create action holds only the document id, the document type and the
      index, under its one key. */
  lemma CreateActionFields(index: string, docType: string, pid: Value)
    ensures var a := CreateAction(index, docType, pid);
      && a.JObj? && Keys(a.members) == ["create"]
      && a.members[0].1.JObj? && Keys(a.members[0].1.members) == ["_id", "_type", "_index"]
      && Path(a, ["create", "_id"]) == Some(pid)
      && Path(a, ["create", "_type"]) == Some(JStr(docType))
      && Path(a, ["create", "_index"]) == Some(JStr(index))
  {
    var inner := CreateAction(index, docType, pid).members[0].1.members;
    LookupDistinct(inner, 0);
    LookupDistinct(inner, 1);
    LookupDistinct(inner, 2);
  }

  /** A delete action holds only the document id, the document type and the
      index, under its one key. */
  lemma DeleteActionFields(index: string, docType: string, pid: Value)
    ensures var a := DeleteAction(index, docType, pid);
      && a.JObj? && Keys(a.members) == ["delete"]
      && a.members[0].1.JObj? && Keys(a.members[0].1.members) == ["_id", "_type", "_index"]
      && Path(a, ["delete", "_id"]) == Some(pid)
      && Path(a, ["delete", "_type"]) == Some(JStr(docType))
      && Path(a, ["delete", "_index"]) == Some(JStr(index))
  {
    var inner := DeleteAction(index, docType, pid).members[0].1.members;
    LookupDistinct(inner, 0);
    LookupDistinct(inner, 1);
    LookupDistinct(inner, 2);
  }

  /** The action line of every id, in order. */
  function ActionLines(index: string, docType: string, pids: seq<Value>): (lines: seq<string>)
  {
    seq(|pids|, i requires 0 <= i < |pids| => Dumps(CreateAction(index, docType, pids[i])))
  }

  /** The line of every document, in order. */
  function DocumentLines(documents: seq<Value>): (lines: seq<string>)
  {
    seq(|documents|, i requires 0 <= i < |documents| => Dumps(documents[i]))
  }

  /** `["\n".join([x, y]) for x, y in zip(xs, ys)]`. */
  function Entries(xs: seq<string>, ys: seq<string>): (r: seq<string>)
    requires |xs| == |ys|
  {
    seq(|xs|, i requires 0 <= i < |xs| => Strings.Join("\n", [xs[i], ys[i]]))
  }

  /** The lines the bulk create payload is meant to hold: for each pair, its
      action line and then its document line. */
  function Interleave(xs: seq<string>, ys: seq<string>): (r: seq<string>)
    requires |xs| == |ys|
    ensures |r| == 2 * |xs|
    ensures forall i :: 0 <= i < |xs| ==> r[2 * i] == xs[i] && r[2 * i + 1] == ys[i]
  {
    if |xs| == 0 then []
    else
      var rest := Interleave(xs[1..], ys[1..]);
      var r := [xs[0], ys[0]] + rest;
      assert forall i :: 1 <= i < |xs| ==> r[2 * i] == rest[2 * (i - 1)] && r[2 * i + 1] == rest[2 * (i - 1) + 1];
      r
  }

  /** Interleaving newline-free lines gives newline-free lines. */
  lemma {:induction false} InterleaveNoNewline(xs: seq<string>, ys: seq<string>)
    requires |xs| == |ys|
    requires forall i :: 0 <= i < |xs| ==> '\n' !in xs[i] && '\n' !in ys[i]
    ensures forall k :: 0 <= k < |Interleave(xs, ys)| ==> '\n' !in Interleave(xs, ys)[k]
  {
    if |xs| > 0 {
      InterleaveNoNewline(xs[1..], ys[1..]);
      var r, rest := Interleave(xs, ys), Interleave(xs[1..], ys[1..]);
      assert r == [xs[0], ys[0]] + rest;
      assert forall k :: 2 <= k < |r| ==> r[k] == rest[k - 2];
    }
  }

  /** The body of `put_document_bulk`: the two-line entries joined by
      newlines, and a final newline. */
  function BulkCreatePayload(index: string, docType: string, pids: seq<Value>, documents: seq<Value>): string
    requires |pids| == |documents|
  {
    Strings.Join("\n", Entries(ActionLines(index, docType, pids), DocumentLines(documents))) + "\n"
  }

  /** Joining the two-line entries joins the interleaved lines. */
  lemma {:induction false} JoinEntries(xs: seq<string>, ys: seq<string>)
    requires |xs| == |ys| && |xs| >= 1
    ensures Strings.Join("\n", Entries(xs, ys)) == Strings.Join("\n", Interleave(xs, ys))
  {
    var entries := Entries(xs, ys);
    var first := [xs[0], ys[0]];
    assert entries[0] == Strings.Join("\n", first);
    if |xs| > 1 {
      assert entries[1..] == Entries(xs[1..], ys[1..]);
      JoinEntries(xs[1..], ys[1..]);
      Strings.JoinConcat("\n", first, Interleave(xs[1..], ys[1..]));
    }
  }

  /** A newline-free list of lines, joined and newline-terminated, splits
      back into the lines and the empty text after the last newline. */
  lemma TerminatedLines(lines: seq<string>)
    requires |lines| >= 1
    requires forall k :: 0 <= k < |lines| ==> '\n' !in lines[k]
    ensures Strings.Split(Strings.Join("\n", lines) + "\n", '\n') == lines + [""]
  {
    var joined := Strings.Join("\n", lines);
    Strings.JoinConcat("\n", lines, [""]);
    assert Strings.Join("\n", [""]) == "";
    assert joined + "\n" + "" == joined + "\n";
    assert Strings.Join("\n", lines + [""]) == joined + "\n";
    Strings.SplitJoin(lines + [""], '\n');
  }

  /** Newline-free lines paired into entries, joined and newline-terminated,
      split back into the interleaved lines and the empty text after the
      final newline. */
  lemma EntriesSplit(xs: seq<string>, ys: seq<string>)
    requires |xs| == |ys| && |xs| >= 1
    requires forall i :: 0 <= i < |xs| ==> '\n' !in xs[i] && '\n' !in ys[i]
    ensures Strings.Split(Strings.Join("\n", Entries(xs, ys)) + "\n", '\n') == Interleave(xs, ys) + [""]
  {
    JoinEntries(xs, ys);
    InterleaveNoNewline(xs, ys);
    TerminatedLines(Interleave(xs, ys));
  }

  /** Split at its newlines, the create payload gives back the action line
      and the document line of every pair, in order, and the empty text
      after the final newline; with no pair it is a single newline. */
  lemma BulkCreateLines(index: string, docType: string, pids: seq<Value>, documents: seq<Value>)
    requires |pids| == |documents|
    ensures var lines := Strings.Split(BulkCreatePayload(index, docType, pids, documents), '\n');
      |pids| >= 1 ==>
        && |lines| == 2 * |pids| + 1 && lines[2 * |pids|] == ""
        && forall i :: 0 <= i < |pids| ==>
             lines[2 * i] == Dumps(CreateAction(index, docType, pids[i])) && lines[2 * i + 1] == Dumps(documents[i])
    ensures |pids| == 0 ==> BulkCreatePayload(index, docType, pids, documents) == "\n"
  {
    if |pids| >= 1 {
      var xs, ys := ActionLines(index, docType, pids), DocumentLines(documents);
      forall i | 0 <= i < |xs| ensures '\n' !in xs[i] && '\n' !in ys[i] {
        DumpsHasNoNewline(CreateAction(index, docType, pids[i]));
        DumpsHasNoNewline(documents[i]);
      }
      EntriesSplit(xs, ys);
      var lines := Interleave(xs, ys);
      assert forall i :: 0 <= i < |pids| ==> (lines + [""])[2 * i] == xs[i] && (lines + [""])[2 * i + 1] == ys[i];
    }
  }

  /** The body of `delete_document_bulk`: one action line per id, joined by
      newlines, and a final newline. */
  function BulkDeletePayload(index: string, docType: string, pids: seq<Value>): string
  {
    Strings.Join("\n", seq(|pids|, i requires 0 <= i < |pids| => Dumps(DeleteAction(index, docType, pids[i])))) + "\n"
  }

  /** Split at its newlines, the delete payload gives back one delete action
      line per id, in order, and the empty text after the final newline; with
      no id it is a single newline. */
  lemma BulkDeleteLines(index: string, docType: string, pids: seq<Value>)
    ensures var lines := Strings.Split(BulkDeletePayload(index, docType, pids), '\n');
      |pids| >= 1 ==>
        && |lines| == |pids| + 1 && lines[|pids|] == ""
        && forall i :: 0 <= i < |pids| ==> lines[i] == Dumps(DeleteAction(index, docType, pids[i]))
    ensures |pids| == 0 ==> BulkDeletePayload(index, docType, pids) == "\n"
  {
    if |pids| >= 1 {
      var lines := seq(|pids|, i requires 0 <= i < |pids| => Dumps(DeleteAction(index, docType, pids[i])));
      forall k | 0 <= k < |lines| ensures '\n' !in lines[k] {
        DumpsHasNoNewline(DeleteAction(index, docType, pids[k]));
      }
      TerminatedLines(lines);
    }
  }

  /** `create_pid` of both document clients: `"-".join(s3_tuple[:2])`. */
  function CreatePid(t: S3Tuple): string
  {
    Strings.Join("-", [t.bucket, t.key])
  }

  /** The id is the bucket, a dash and the key, whatever the size; no `/` is
      replaced. */
  lemma CreatePidShape(t: S3Tuple)
    ensures CreatePid(t) == t.bucket + "-" + t.key
    ensures forall size :: CreatePid(S3Tuple(t.bucket, t.key, size)) == CreatePid(t)
  {
    assert [t.bucket, t.key][1..] == [t.key];
    assert Strings.Join("-", [t.key]) == t.key;
  }

  /** Within one bucket, distinct keys get distinct ids, and one key in
      distinct buckets does too. */
  lemma CreatePidInjectivePerPart(t1: S3Tuple, t2: S3Tuple)
    ensures t1.bucket == t2.bucket && CreatePid(t1) == CreatePid(t2) ==> t1.key == t2.key
    ensures t1.key == t2.key && CreatePid(t1) == CreatePid(t2) ==> t1.bucket == t2.bucket
  {
    CreatePidShape(t1);
    CreatePidShape(t2);
    var p1, p2 := CreatePid(t1), CreatePid(t2);
    if t1.bucket == t2.bucket && p1 == p2 {
      assert t1.key == p1[|t1.bucket| + 1..];
      assert t2.key == p2[|t2.bucket| + 1..];
    }
    if t1.key == t2.key && p1 == p2 {
      assert |t1.bucket| == |t2.bucket|;
      assert t1.bucket == p1[..|t1.bucket|];
      assert t2.bucket == p2[..|t2.bucket|];
    }
  }

  /** Across buckets ids can collide, since bucket and key may both hold a dash. */
  lemma CreatePidCollision()
    ensures CreatePid(S3Tuple("a", "b-c", 0)) == CreatePid(S3Tuple("a-b", "c", 0))
  {
  }

  /** The text document: title, extension, size, the global S3 URL of the
      object, content. */
  function TextDocEntry(title: string, extension: string, t: S3Tuple, content: string): Value
  {
    JObj([
      ("title", JStr(title)),
      ("extension", JStr(extension)),
      ("filesize", JInt(t.size)),
      ("s3_url", JStr("https://s3.amazonaws.com/" + t.bucket + "/" + t.key)),
      ("content", JStr(content))])
  }

  /** The text document has the five fields in order. */
  lemma TextDocEntryKeys(title: string, extension: string, t: S3Tuple, content: string)
    ensures var d := TextDocEntry(title, extension, t, content);
      d.JObj? && Keys(d.members) == ["title", "extension", "filesize", "s3_url", "content"]
  {
    var ks := Keys(TextDocEntry(title, extension, t, content).members);
    assert |ks| == 5 && ks[0] == "title" && ks[1] == "extension" && ks[2] == "filesize" && ks[3] == "s3_url" && ks[4] == "content";
  }

  /** The text document copies title, extension and content, takes its size
      from the tuple and points at the object without any region. */
  lemma TextDocEntryFields(title: string, extension: string, t: S3Tuple, content: string)
    ensures var d := TextDocEntry(title, extension, t, content);
      && d.JObj?
      && Lookup(d.members, "title") == Some(JStr(title))
      && Lookup(d.members, "extension") == Some(JStr(extension))
      && Lookup(d.members, "filesize") == Some(JInt(t.size))
      && Lookup(d.members, "s3_url") == Some(JStr("https://s3.amazonaws.com/" + t.bucket + "/" + t.key))
      && Lookup(d.members, "content") == Some(JStr(content))
  {
    var m := TextDocEntry(title, extension, t, content).members;
    LookupDistinct(m, 0);
    LookupDistinct(m, 1);
    LookupDistinct(m, 2);
    LookupDistinct(m, 3);
    LookupDistinct(m, 4);
  }

  function TypeIs(name: string): Value
  {
    JObj([("type", JStr(name))])
  }

  /** The mapping of the text-file index. */
  function TextMapping(): Value
  {
    JObj([("properties", JObj([
      ("title", TypeIs("text")),
      ("extension", TypeIs("keyword")),
      ("s3_url", TypeIs("text")),
      ("filesize", TypeIs("integer")),
      ("content", TypeIs("text"))]))])
  }

  /** The mapping of the image-file index. */
  function ImageMapping(): Value
  {
    JObj([("properties", JObj([
      ("extension", TypeIs("keyword")),
      ("s3_url", TypeIs("text")),
      ("filesize", TypeIs("integer")),
      ("tags", TypeIs("text"))]))])
  }

  /** The fields of a text document are exactly the properties its index maps. */
  lemma TextMappingCoversDocument(title: string, extension: string, t: S3Tuple, content: string)
    ensures forall k :: k in Keys(TextDocEntry(title, extension, t, content).members)
                    <==> k in Keys(TextMapping().members[0].1.members)
  {
    TextDocEntryKeys(title, extension, t, content);
    var ks := Keys(TextMapping().members[0].1.members);
    assert |ks| == 5 && ks[0] == "title" && ks[1] == "extension" && ks[2] == "s3_url" && ks[3] == "filesize" && ks[4] == "content";
  }

  /** A Python list object: documents alias the lists they are given. */
  class PyList {
    var items: seq<string>

    constructor (items: seq<string>)
      ensures this.items == items
    {
      this.items := items;
    }
  }

  /** The image document: extension, size, the global S3 URL of the object
      and the tags. */
  function ImageDocValue(extension: string, t: S3Tuple, tags: seq<string>): Value
  {
    JObj([
      ("extension", JStr(extension)),
      ("filesize", JInt(t.size)),
      ("s3_url", JStr("https://s3.amazonaws.com/" + t.bucket + "/" + t.key)),
      ("tags", JArr(seq(|tags|, i requires 0 <= i < |tags| => JStr(tags[i]))))])
  }

  /** The image document has the four fields in order, exactly the
      properties its index maps. */
  lemma ImageDocValueKeys(extension: string, t: S3Tuple, tags: seq<string>)
    ensures var d := ImageDocValue(extension, t, tags);
      d.JObj? && Keys(d.members) == ["extension", "filesize", "s3_url", "tags"]
    ensures forall k :: k in Keys(ImageDocValue(extension, t, tags).members)
                    <==> k in Keys(ImageMapping().members[0].1.members)
  {
    var ks := Keys(ImageDocValue(extension, t, tags).members);
    assert |ks| == 4 && ks[0] == "extension" && ks[1] == "filesize" && ks[2] == "s3_url" && ks[3] == "tags";
    var ms := Keys(ImageMapping().members[0].1.members);
    assert |ms| == 4 && ms[0] == "extension" && ms[1] == "s3_url" && ms[2] == "filesize" && ms[3] == "tags";
  }

  /** The image document takes its size from the tuple, points at the object
      and holds the tags in the order given. */
  lemma ImageDocValueFields(extension: string, t: S3Tuple, tags: seq<string>)
    ensures var d := ImageDocValue(extension, t, tags);
      && d.JObj?
      && Lookup(d.members, "extension") == Some(JStr(extension))
      && Lookup(d.members, "filesize") == Some(JInt(t.size))
      && Lookup(d.members, "s3_url") == Some(JStr("https://s3.amazonaws.com/" + t.bucket + "/" + t.key))
      && Lookup(d.members, "tags").Some? && Lookup(d.members, "tags").value.JArr?
      && var items := Lookup(d.members, "tags").value.items;
      && |items| == |tags| && (forall i :: 0 <= i < |tags| ==> items[i] == JStr(tags[i]))
  {
    var m := ImageDocValue(extension, t, tags).members;
    LookupDistinct(m, 0);
    LookupDistinct(m, 1);
    LookupDistinct(m, 2);
    LookupDistinct(m, 3);
  }

  /** The image `create_doc_entry`: the texts and then the celebrities are
      spliced in front of the label list itself, which becomes the tag list.
      With three distinct lists the tags are the celebrities, the texts and
      the labels in that order; a celebrity list that is the label list
      itself sees the spliced list. */
  method ImageDocEntry(extension: string, t: S3Tuple, imageLabels: PyList, imageTexts: PyList, celebrities: PyList)
    returns (doc: Value)
    modifies imageLabels
    ensures imageLabels.items ==
      (if celebrities == imageLabels then old(imageTexts.items) + old(imageLabels.items) else old(celebrities.items))
      + old(imageTexts.items) + old(imageLabels.items)
    ensures doc == ImageDocValue(extension, t, imageLabels.items)
  {
    var tags := imageLabels;
    tags.items := imageTexts.items + tags.items;
    tags.items := celebrities.items + tags.items;
    doc := ImageDocValue(extension, t, tags.items);
  }

  /** Labels ["cat", "dog"], texts ["STOP"] and celebrities ["X"] give the
      tags ["X", "STOP", "cat", "dog"]. */
  method ImageTagOrder() returns (tags: seq<string>)
    ensures tags == ["X", "STOP", "cat", "dog"]
  {
    var labels := new PyList(["cat", "dog"]);
    var texts := new PyList(["STOP"]);
    var celebs := new PyList(["X"]);
    var doc := ImageDocEntry("png", S3Tuple("bucket", "photo.png", 1), labels, texts, celebs);
    tags := labels.items;
  }

  /** Passing the label list as the celebrity list too doubles the spliced list. */
  method ImageTagsAliased() returns (tags: seq<string>)
    ensures tags == ["STOP", "cat", "STOP", "cat"]
  {
    var labels := new PyList(["cat"]);
    var texts := new PyList(["STOP"]);
    var doc := ImageDocEntry("png", S3Tuple("bucket", "photo.png", 1), labels, texts, labels);
    tags := labels.items;
  }

  /** Which of the three clients an instance is. */
  datatype Flavour = Base | Textfile | Imagefile

  const DefaultHost := "http://localhost"
  const DefaultPort := 9200
  const DefaultRegion := "us-east-1"

  /** A client bound to one index, document type and mapping. */
  class ESClient {
    const flavour: Flavour
    const host: string
    const port: int
    const endpoint: string
    const index: string
    const docType: string
    const mapping: Value
    const awsRegion: Option<string>

    /** The base client. */
    constructor (host: string, port: int, index: string, docType: string, mapping: Value)
      ensures this.flavour == Base
      ensures this.host == host && this.port == port && this.endpoint == Endpoint(host, port)
      ensures this.index == index && this.docType == docType && this.mapping == mapping
      ensures this.awsRegion == None
    {
      flavour := Base;
      this.host := host;
      this.port := port;
      var ep := NormalizeEndpoint(host, port);
      endpoint := ep;
      this.index := index;
      this.docType := docType;
      this.mapping := mapping;
      awsRegion := None;
    }

    /** The text-file client (defaults `DefaultHost`, `DefaultPort`, `DefaultRegion`). */
    constructor Text(host: string, port: int, awsRegion: string)
      ensures this.flavour == Textfile
      ensures this.host == host && this.port == port && this.endpoint == Endpoint(host, port)
      ensures this.index == "textfilesearch" && this.docType == "textfile" && this.mapping == TextMapping()
      ensures this.awsRegion == Some(awsRegion)
    {
      flavour := Textfile;
      this.host := host;
      this.port := port;
      var ep := NormalizeEndpoint(host, port);
      endpoint := ep;
      index := "textfilesearch";
      docType := "textfile";
      mapping := TextMapping();
      this.awsRegion := Some(awsRegion);
    }

    /** The image-file client (same defaults). */
    constructor Image(host: string, port: int, awsRegion: string)
      ensures this.flavour == Imagefile
      ensures this.host == host && this.port == port && this.endpoint == Endpoint(host, port)
      ensures this.index == "imagefilesearch" && this.docType == "imagefile" && this.mapping == ImageMapping()
      ensures this.awsRegion == Some(awsRegion)
    {
      flavour := Imagefile;
      this.host := host;
      this.port := port;
      var ep := NormalizeEndpoint(host, port);
      endpoint := ep;
      index := "imagefilesearch";
      docType := "imagefile";
      mapping := ImageMapping();
      this.awsRegion := Some(awsRegion);
    }

    function IndexUrl(): string
    {
      endpoint + "/" + index
    }

    function DocumentUrl(pid: string): string
    {
      endpoint + "/" + index + "/" + docType + "/" + pid
    }

    function SearchUrl(): string
    {
      endpoint + "/" + index + "/" + docType + "/_search"
    }

    /** `put_index`: an existing index (400) is accepted unless told otherwise. */
    function PutIndex(ignoreExistError: bool): (c: Call)
      ensures c.request == Request(PUT, endpoint + "/" + index, NoPayload)
      ensures forall s :: Accepts(c.check, s) <==> s == 200 || (ignoreExistError && s == 400)
    {
      Call(Request(PUT, IndexUrl(), NoPayload), if ignoreExistError then OneOf([200, 400]) else OneOf([200]))
    }

    /** `delete_index`: a missing index (404) is accepted unless told otherwise. */
    function DeleteIndex(ignoreNonexistError: bool): (c: Call)
      ensures c.request == Request(DELETE, endpoint + "/" + index, NoPayload)
      ensures forall s :: Accepts(c.check, s) <==> s == 200 || (ignoreNonexistError && s == 404)
    {
      Call(Request(DELETE, IndexUrl(), NoPayload), if ignoreNonexistError then OneOf([200, 404]) else OneOf([200]))
    }

    /** `put_mapping` sends the client's mapping and wants 200. */
    function PutMapping(): (c: Call)
      ensures c.request == Request(PUT, endpoint + "/" + index + "/_mapping/" + docType, JsonPayload(mapping))
      ensures forall s :: Accepts(c.check, s) <==> s == 200
    {
      Call(Request(PUT, IndexUrl() + "/_mapping/" + docType, JsonPayload(mapping)), OneOf([200]))
    }

    /** `get_document` wants 200. */
    function GetDocument(pid: string): (c: Call)
      ensures c.request == Request(GET, endpoint + "/" + index + "/" + docType + "/" + pid, NoPayload)
      ensures forall s :: Accepts(c.check, s) <==> s == 200
    {
      Call(Request(GET, DocumentUrl(pid), NoPayload), OneOf([200]))
    }

    /** `put_document` wants 201 (created). */
    function PutDocument(pid: string, document: Value): (c: Call)
      ensures c.request == Request(PUT, endpoint + "/" + index + "/" + docType + "/" + pid, JsonPayload(document))
      ensures forall s :: Accepts(c.check, s) <==> s == 201
    {
      Call(Request(PUT, DocumentUrl(pid), JsonPayload(document)), OneOf([201]))
    }

    /** `put_document_bulk`: the id and document lists must have the same
      length; the payload goes to the bulk endpoint, which must answer 200. */
    function PutDocumentBulk(pids: seq<Value>, documents: seq<Value>): (r: Result<Call, PyError>)
      ensures r.Err? <==> |pids| != |documents|
      ensures r.Err? ==> r.error == AssertionError
      ensures r.Ok? ==> r.value.request == Request(POST, endpoint + "/_bulk?pretty",
                                                   NdjsonPayload(BulkCreatePayload(index, docType, pids, documents)))
      ensures r.Ok? ==> forall s :: Accepts(r.value.check, s) <==> s == 200
    {
      if |pids| != |documents| then Err(AssertionError)
      else Ok(Call(Request(POST, endpoint + "/_bulk?pretty", NdjsonPayload(BulkCreatePayload(index, docType, pids, documents))),
                   OneOf([200])))
    }

    /** `delete_document`: a missing document (404) is accepted unless told otherwise. */
    function DeleteDocument(pid: string, ignoreNonexistError: bool): (c: Call)
      ensures c.request == Request(DELETE, endpoint + "/" + index + "/" + docType + "/" + pid, NoPayload)
      ensures forall s :: Accepts(c.check, s) <==> s == 200 || (ignoreNonexistError && s == 404)
    {
      Call(Request(DELETE, DocumentUrl(pid), NoPayload), if ignoreNonexistError then OneOf([200, 404]) else OneOf([200]))
    }

    /** `delete_document_bulk` wants 200 from the bulk endpoint. */
    function DeleteDocumentBulk(pids: seq<Value>): (c: Call)
      ensures c.request == Request(POST, endpoint + "/_bulk?pretty", NdjsonPayload(BulkDeletePayload(index, docType, pids)))
      ensures forall s :: Accepts(c.check, s) <==> s == 200
    {
      Call(Request(POST, endpoint + "/_bulk?pretty", NdjsonPayload(BulkDeletePayload(index, docType, pids))), OneOf([200]))
    }

    /** `search_document` accepts any status. */
    function SearchDocument(body: Value): (c: Call)
      ensures c.request == Request(GET, endpoint + "/" + index + "/" + docType + "/_search", JsonPayload(body))
      ensures forall s :: Accepts(c.check, s)
    {
      Call(Request(GET, SearchUrl(), JsonPayload(body)), AnyStatus)
    }

    /** `query_all`: a match-all search that must answer 200. */
    function QueryAll(): (c: Call)
      ensures c.request.verb == GET && c.request.url == endpoint + "/" + index + "/" + docType + "/_search"
      ensures c.request.payload == JsonPayload(JObj([("query", JObj([("match_all", JObj([]))]))]))
      ensures forall s :: Accepts(c.check, s) <==> s == 200
    {
      Call(Request(GET, SearchUrl(), JsonPayload(JObj([("query", JObj([("match_all", JObj([]))]))]))), OneOf([200]))
    }

    /** `delete_document_by_query`: searches, and when the response reports a
        positive hit total deletes the ids of the listed hits in one bulk
        call and returns its response; otherwise returns the search response. */
    function DeleteDocumentByQuery(body: Value, server: Request -> Response): (r: Result<Response, PyError>)
      ensures var data := server(SearchDocument(body).request).data;
        forall n :: n <= 0 && Path(data, ["hits", "total"]) == Some(JInt(n)) ==> r == Ok(server(SearchDocument(body).request))
      ensures var data := server(SearchDocument(body).request).data;
        forall n, items ::
          (&& n > 0 && Path(data, ["hits", "total"]) == Some(JInt(n))
           && Path(data, ["hits", "hits"]) == Some(JArr(items)) && HitIds(JArr(items)).Ok?) ==>
          r == Perform(DeleteDocumentBulk(HitIds(JArr(items)).value), server)
    {
      var res := server(SearchDocument(body).request);
      match Index(res.data, "hits")
      case Err(e) => Err(e)
      case Ok(hits) =>
        match Index(hits, "total")
        case Err(e) => Err(e)
        case Ok(total) =>
          match IsPositive(total)
          case Err(e) => Err(e)
          case Ok(false) => Ok(res)
          case Ok(true) =>
            match Index(hits, "hits")
            case Err(e) => Err(e)
            case Ok(list) =>
              match HitIds(list)
              case Err(e) => Err(e)
              case Ok(pids) => Perform(DeleteDocumentBulk(pids), server)
    }

    /** `search_and_highlight_document` of the text client (defaults 3, 3 and 100). */
    function SearchAndHighlightDocument(keywords: seq<string>, numOfDocs: int, numOfHighlights: int,
                                        highlightFragmentSize: int): Call
    {
      SearchDocument(QueryBodies.HighlightBody(keywords, numOfDocs, numOfHighlights, highlightFragmentSize))
    }

    /** `search_document_by_tags` of the image client (default 3). */
    function SearchDocumentByTags(tags: seq<string>, numOfDocs: int): Call
    {
      SearchDocument(QueryBodies.TagBody(tags, numOfDocs))
    }

    /** The highlight search goes to the search URL with any status accepted,
        asks for the first `numOfDocs` hits, matches the space-joined
        keywords against content and title and takes the fragment settings
        from the arguments. */
    lemma HighlightSearchRequest(keywords: seq<string>, numOfDocs: int, numOfHighlights: int,
                                 highlightFragmentSize: int)
      ensures var c := SearchAndHighlightDocument(keywords, numOfDocs, numOfHighlights, highlightFragmentSize);
        && c.request.verb == GET && c.request.url == endpoint + "/" + index + "/" + docType + "/_search"
        && c.check == AnyStatus && c.request.payload.JsonPayload?
        && var body := c.request.payload.value;
        && Path(body, ["from"]) == Some(JInt(0))
        && Path(body, ["size"]) == Some(JInt(numOfDocs))
        && Path(body, ["query", "multi_match", "query"]) == Some(JStr(Strings.Join(" ", keywords)))
        && Path(body, ["query", "multi_match", "fields"]) == Some(JArr([JStr("content"), JStr("title")]))
        && Path(body, ["highlight", "number_of_fragments"]) == Some(JInt(numOfHighlights))
        && Path(body, ["highlight", "fragment_size"]) == Some(JInt(highlightFragmentSize))
    {
      QueryBodies.HighlightBodyPaging(keywords, numOfDocs, numOfHighlights, highlightFragmentSize);
      QueryBodies.HighlightBodyQuery(keywords, numOfDocs, numOfHighlights, highlightFragmentSize);
      QueryBodies.HighlightBodyHighlight(keywords, numOfDocs, numOfHighlights, highlightFragmentSize);
    }

    /** The tag search goes to the search URL with one match clause per tag,
        in tag order, and asks for the first `numOfDocs` hits. */
    lemma TagSearchRequest(tags: seq<string>, numOfDocs: int)
      ensures var c := SearchDocumentByTags(tags, numOfDocs);
        && c.request.verb == GET && c.request.url == endpoint + "/" + index + "/" + docType + "/_search"
        && c.check == AnyStatus && c.request.payload.JsonPayload?
        && var body := c.request.payload.value;
        && Path(body, ["from"]) == Some(JInt(0))
        && Path(body, ["size"]) == Some(JInt(numOfDocs))
        && var should := Path(body, ["query", "bool", "should"]);
        && should.Some? && should.value.JArr? && |should.value.items| == |tags|
        && (forall i :: 0 <= i < |tags| ==> Path(should.value.items[i], ["match", "tags"]) == Some(JStr(tags[i])))
    {
      QueryBodies.TagBodyPaging(tags, numOfDocs);
      QueryBodies.TagBodyClauses(tags, numOfDocs);
    }
  }

  /** `data["hits"]["total"] > 0` on a decoded total: an integer compares,
      a boolean counts as 0 or 1, anything else raises a TypeError. */
  function IsPositive(total: Value): (r: Result<bool, PyError>)
    ensures total.JInt? ==> r == Ok(total.n > 0)
    ensures total.JBool? ==> r == Ok(total.b)
    ensures !total.JInt? && !total.JBool? ==> r == Err(TypeError)
  {
    match total
    case JInt(n) => Ok(n > 0)
    case JBool(b) => Ok(b)
    case _ => Err(TypeError)
  }

  /** `document["_id"]`. */
  function HitId(hit: Value): Result<Value, PyError>
  {
    Index(hit, "_id")
  }

  /** `[document["_id"] for document in hits]`: the id of every listed hit,
      in order. Iterating an empty dict or string yields nothing; a
      non-empty one yields strings, which cannot be subscripted by a key;
      anything else is not iterable. */
  function HitIds(hits: Value): (r: Result<seq<Value>, PyError>)
    ensures hits.JArr? ==> (r.Ok? <==> forall i :: 0 <= i < |hits.items| ==> Index(hits.items[i], "_id").Ok?)
    ensures hits.JArr? && r.Ok? ==>
      |r.value| == |hits.items| && forall i :: 0 <= i < |hits.items| ==> Index(hits.items[i], "_id") == Ok(r.value[i])
    ensures hits.JObj? ==> r == if |hits.members| == 0 then Ok([]) else Err(TypeError)
    ensures hits.JStr? ==> r == if |hits.s| == 0 then Ok([]) else Err(TypeError)
    ensures !hits.JArr? && !hits.JObj? && !hits.JStr? ==> r == Err(TypeError)
  {
    forall s: string ensures HitId(JStr(s)) == Err(TypeError) {
    }
    MapIterOverStrings(HitId, hits);
    MapIter(HitId, hits)
  }
}
