# Serverless search over uploaded files: a Dafny model

The system indexes files uploaded to an S3 bucket into Elasticsearch and
answers a chat bot (Amazon Lex) that books meetings. This project models the
deterministic logic that sits around those services. Every HTTP request,
SDK call and detector in it is an abstract effect.

- **Elasticsearch clients.**
  - Module `EsClient` covers `src/esclient.py`: the endpoint rule, the
    request each client method sends, the status codes each one accepts,
    the NDJSON bulk payloads, the document ids, and the text and image
    documents.
  - Module `ClientElasticsearch` covers `src/client_elasticsearch.py`: the
    high-level text model's ids, documents and bulk actions, and its
    size-bounded batching loop.
  - Module `QueryBodies` holds the search bodies that both clients build.
- **Chat replies.**
  - Module `ClientLex` covers `src/client_lex.py`: buttons, generic
    attachments, response cards and the Close / ElicitSlot replies, with
    their assertions.
  - Module `LambdaLexExample` covers `src/lambda_lex_example.py`: the
    slot-filling decision order, and the handler that turns any exception
    into a failed Close turn.
- **Indexing hook.** Module `LambdaEsIndexing` covers
  `src/lambda_es_indexing.py`: the (bucket, key, size) tuple taken from
  each queue message, routing by file extension, the aligned id and
  document lists, and the two stages of index, mapping and bulk requests,
  with the log of requests sent.
- **Shared modules.**
  - `Wrappers`: Python's exception kinds and their texts, plus Option and
    Result.
  - `Strings`: join, split, replace and integer formatting.
  - `Json`: decoded JSON values, subscripting with its exceptions, nested
    paths, and `json.dumps` with ASCII escaping.
  - `Http`: requests, responses, status checks, and running a sequence of
    calls against a server.
  - `S3`: the (bucket, key, size) tuple.

**How the model works.**
- A JSON object is an ordered list of members. Lookup returns the last
  binding of a key, as `json.loads` does.
- The Elasticsearch server is a function from request to response that the
  caller supplies.
- A client method is a `Call` value: the request, plus the set of statuses
  its `assert` accepts.
- Running calls stops at the first rejected status, which is the
  `AssertionError` Python raises there.
- The indexing hook is a class. Its `log` field records every request
  actually sent, including the rejected one.
- Whether Elasticsearch carries out a `helpers.bulk` call is a function
  parameter of the text model's batching loop. The first call it does not
  carry out ends the loop with the `BulkIndexError` that `bulk` raises.
- The detectors (`detect_labels`, `detect_text`, `recognize_celebrities`)
  and the text extraction from S3 objects are function parameters.

**Behaviour of the code that a reader might not expect.**
- **Storage URL.** The text model builds `https://s3-<region>...` URLs,
  while the commented-out test expects `http://s3-`. The model follows the
  code.
- **Lex handler reply.** `lambda_handler` of the Lex example returns
  whatever `make_response` returns, which can be an ElicitSlot turn. Only
  an exception gives the failed Close turn (src/lambda_lex_example.py:93-102).
- **Hosts starting with "http".** A host that begins with "http" but has no
  scheme (`httpbin.org`) gets no scheme added.
- **Id collisions.**
  - `_get_id` maps `/` to `-`, so two keys that differ only there collide.
  - `create_pid` joins bucket and key with `-`, so `("a", "b-c")` and
    `("a-b", "c")` collide.
- **Mapping field name.** The text model's mapping names a field
  `keyphrases`, while its documents carry `key_phrases`.

## Model

| member | source | states |
|---|---|---|
| Wrappers.ErrorText | src/lambda_lex_example.py:101 | The text an exception formats to: a KeyError shows its key quoted; an AssertionError shows nothing |
| Wrappers.MapAll | src/lambda_es_indexing.py:92-95 | `list(map(f, xs))` succeeds exactly when `f` succeeds on every item; its result has one value per item, in order |
| Wrappers.MapAllFirstError | src/lambda_es_indexing.py:92-95 | A failed mapping raises the exception of the first item on which `f` fails; every earlier item succeeded |
| Json.Lookup | src/lambda_lex_example.py:40 | A key is absent exactly when it is not among the object's keys; otherwise the result is a member bound to it |
| Json.Index | src/lambda_lex_example.py:24-30 | `d[key]`: the bound value on a dict holding the key, a KeyError naming the key on a dict without it, a TypeError on anything else |
| Json.DictGet | src/lambda_lex_example.py:40 | `d.get(key)`: the lookup on a dict, an AttributeError on anything else |
| Json.At | src/lambda_es_indexing.py:92 | `l[i]` succeeds exactly on a list with the index inside it, and gives that item |
| Json.MapIter | src/lambda_es_indexing.py:92-95 | Mapping over a list maps its items; over an int, bool or null it raises TypeError; an empty dict or string yields nothing |
| Json.MapIterOverStrings | src/lambda_es_indexing.py:92-95 | If `f` rejects every string with a TypeError, mapping it over a non-empty dict or string raises that TypeError |
| Json.DumpsHasNoNewline | src/esclient.py:119-125 | The `json.dumps` text of any value has no newline, so every NDJSON entry is one line |
| Json.DumpsPrintable | src/esclient.py:119-125 | The `json.dumps` text of any value consists of printable ASCII only |
| Http.Perform | src/esclient.py:43-48 | Sending one call gives the server's response when the status passes the call's check, and an AssertionError otherwise |
| Http.Execute | src/lambda_es_indexing.py:41-50 | Running calls in turn succeeds exactly when every status is accepted, and then returns the responses in order; otherwise it raises an AssertionError |
| Http.Issued | src/lambda_es_indexing.py:41-50 | The requests actually sent are a prefix of the calls, and all of them when the run succeeds |
| Http.IssuedStopsAtRejection | src/lambda_es_indexing.py:41-50 | In a failed run, the last request sent is the first rejected one, and every request before it was accepted |
| Http.ExecuteAppend | src/lambda_es_indexing.py:29-68 | Two lists run one after the other succeed exactly when each does |
| Http.IssuedAppend | src/lambda_es_indexing.py:29-68 | Running two lists in turn sends the first list's requests, then the second's only if the first succeeded |
| ClientElasticsearch.DocType | src/client_elasticsearch.py:28 | The document type is the lower-cased class name, `textfilemodel` |
| ClientElasticsearch.GetIdShape | src/client_elasticsearch.py:98 | The id is the bucket and the key, each with `/` replaced by `-`, joined by `--`; it has no `/` and ignores the size |
| ClientElasticsearch.GetIdCollision | src/client_elasticsearch.py:98 | Keys `a/b` and `a-b` in the same bucket get the same id |
| ClientElasticsearch.FormulateDocFields | src/client_elasticsearch.py:116-124 | The document copies title, extension, content, entities and key phrases, takes the file size from the tuple, and builds the regional S3 URL from the region, bucket and key |
| ClientElasticsearch.FormulateDocDefaultsEmpty | src/client_elasticsearch.py:100-124 | Without entities and key phrases, both lists are empty and the other fields are as above |
| ClientElasticsearch.Zip | src/client_elasticsearch.py:171 | `zip` pairs the lists item by item, and its length is that of the shorter list |
| ClientElasticsearch.BulkActions | src/client_elasticsearch.py:171-177 | One action per zipped pair, in order |
| ClientElasticsearch.BulkActionFields | src/client_elasticsearch.py:172-177 | Each action carries the model's index, the type `textfilemodel`, the id of its tuple and its document as source |
| ClientElasticsearch.FlushStep | src/client_elasticsearch.py:178-182 | An action that brings the running total to the threshold closes a batch that every proper prefix keeps below it; the buffer restarts empty |
| ClientElasticsearch.KeepStep | src/client_elasticsearch.py:178 | An action that keeps the total below the threshold joins the buffer, and the total grows by its file size |
| ClientElasticsearch.FinalStep | src/client_elasticsearch.py:183-184 | At the end, a non-empty buffer becomes the last batch and an empty one is not sent; either way the batches cover every action |
| ClientElasticsearch.AllCarriedMeans | src/client_elasticsearch.py:180-184 | The loop's running record of carried-out calls holds exactly when every call made so far was carried out |
| ClientElasticsearch.AddAction | src/client_elasticsearch.py:172-182 | One loop step: the action is buffered and the total updated, or the buffer goes out as a bulk call and is reset to empty with total 0; the step reports whether that call was carried out, and a failed call is the last one made |
| ClientElasticsearch.PutDocumentBulk | src/client_elasticsearch.py:161-184 | The bulk calls made are the calls of the one well-batched split of the zipped actions up to and including the first that fails: each mid-loop batch first reaches the threshold at its last action, no batch is empty, and together they start the actions in input order. The run succeeds exactly when every call was carried out, and then covers every action; otherwise it raises the BulkIndexError of its last call |
| ClientElasticsearch.Sent | src/client_elasticsearch.py:178-184 | The calls made when an exception from `bulk` ends the loop: a start of all the batches, all of them when every call is carried out |
| ClientElasticsearch.SentUpToFailure | src/client_elasticsearch.py:178-184 | A start of the batches whose last call is the first to fail is exactly what is sent |
| ClientElasticsearch.PrefixOfSplit | src/client_elasticsearch.py:178-182 | Batches flushed at the threshold that cover a start of the actions are a start of the well-batched split of all of them |
| ClientElasticsearch.SameFirstBatch | src/client_elasticsearch.py:178-184 | Two well-batched splits of the same actions start with the same batch, and what follows in each is a well-batched split of the rest |
| ClientElasticsearch.FirstSentBatch | src/client_elasticsearch.py:178-182 | The first flushed batch covering a start of the actions is the first batch of the split, and what follows covers the rest in the same way |
| ClientElasticsearch.CompletedRun | src/client_elasticsearch.py:171-184 | A run whose every call is carried out made the calls of the one well-batched split, and they are all carried out |
| ClientElasticsearch.FailedInLoop | src/client_elasticsearch.py:178-181 | A run ended by a failing call inside the loop made a start of every well-batched split, ending at its first failing call |
| ClientElasticsearch.FailedAtEnd | src/client_elasticsearch.py:183-184 | A run whose final remainder call fails made the whole well-batched split, whose last call fails |
| ClientElasticsearch.WellBatchedUnique | src/client_elasticsearch.py:178-184 | The split into batches is determined by the actions and the threshold: two well-batched splits of the same actions are equal |
| ClientElasticsearch.ThresholdBoundary | src/client_elasticsearch.py:179-184 | With a 5000000-byte threshold, files of 3000000, 3000000 and 1000000 bytes go in two requests, [first two] and [third] |
| ClientElasticsearch.KeywordSearchBody | src/client_elasticsearch.py:218-269 | The keyword search targets the model's index and asks for hits from 0, at most `doc_max_size` of them; it matches the space-joined keywords against content and title and takes the fragment settings from the arguments; the defaults are 3, 3 and 50 |
| QueryBodies.HighlightBodyPaging | src/esclient.py:314-316 | The highlight body has exactly the keys from, size, query and highlight, starts at hit 0 and asks for `size` hits |
| QueryBodies.HighlightBodyQuery | src/esclient.py:317-322 | It is a multi-match of the space-joined keywords over the content and title fields |
| QueryBodies.HighlightBodyHighlight | src/esclient.py:323-330 | It highlights the content field, with the fragment count and length from the arguments |
| QueryBodies.QueryTextRoundTrip | src/esclient.py:319 | Splitting the query string on spaces gives back a non-empty list of space-free keywords |
| QueryBodies.TagBodyPaging | src/esclient.py:426-429 | The tag body has exactly the keys from, size and query, starts at hit 0 and asks for `size` hits |
| QueryBodies.TagBodyClauses | src/esclient.py:430-439 | The should list holds one match clause per tag, in tag order, so no tags give an empty list |
| EsClient.Endpoint | src/esclient.py:10-19 | The endpoint is `host:port`, prefixed with `https://` for port 443 or `http://` otherwise unless it already begins with "http"; it always begins with "http" |
| EsClient.JoinedPrefix | src/esclient.py:15 | `host:port` begins with "http" exactly when the host does |
| EsClient.NormalizeEndpoint | src/esclient.py:10-19 | The step-by-step assignment of the endpoint field computes the endpoint rule |
| EsClient.EndpointHostBeginningWithHttp | src/esclient.py:15 | Host `httpbin.org` on port 80 gets no scheme |
| EsClient.EndpointSecurePort | src/esclient.py:16-17 | A plain host on port 443 gets `https://` |
| EsClient.EndpointDefault | src/esclient.py:221 | The default host and port give `http://localhost:9200` |
| EsClient.CreateActionFields | src/esclient.py:121 | A create action line holds exactly the keys `_id`, `_type` and `_index` under `create`, with the pid, type and index |
| EsClient.DeleteActionFields | src/esclient.py:163 | A delete action line holds exactly the keys `_id`, `_type` and `_index` under `delete`, with the pid, type and index |
| EsClient.Interleave | src/esclient.py:119-125 | Even lines are the action lines and odd lines the document lines, pair by pair |
| EsClient.InterleaveNoNewline | src/esclient.py:119-125 | Interleaving newline-free lines gives newline-free lines |
| EsClient.JoinEntries | src/esclient.py:119-125 | Joining the two-line entries with newlines equals joining the interleaved lines |
| EsClient.TerminatedLines | src/esclient.py:125 | Newline-free lines joined with a newline and terminated by one split back into those lines and an empty tail |
| EsClient.EntriesSplit | src/esclient.py:119-125 | The payload of newline-free entries splits into the interleaved lines and an empty tail |
| EsClient.BulkCreateLines | src/esclient.py:118-125 | A bulk payload for n ≥ 1 pairs splits into 2n lines, each pair's create action then its document, in input order, and ends with a newline; no pairs give just a newline |
| EsClient.BulkDeleteLines | src/esclient.py:162-166 | A bulk delete payload splits into one delete action line per pid, in order, and ends with a newline; no pids give just a newline |
| EsClient.CreatePidShape | src/esclient.py:258 | The pid is `bucket-key` and ignores the size |
| EsClient.CreatePidInjectivePerPart | src/esclient.py:371 | With the bucket fixed, the pid determines the key, and with the key fixed it determines the bucket |
| EsClient.CreatePidCollision | src/esclient.py:258 | Tuples ("a", "b-c") and ("a-b", "c") share a pid |
| EsClient.TextDocEntryKeys | src/esclient.py:272-278 | A text document has exactly the keys title, extension, filesize, s3_url and content |
| EsClient.TextDocEntryFields | src/esclient.py:272-278 | It copies title, extension and content, takes the size from the tuple, and uses the global S3 URL of the bucket and key, without the region |
| EsClient.TextMappingCoversDocument | src/esclient.py:227-245 | Every field of a text document is declared in the text client's mapping |
| EsClient.PyList.constructor | src/esclient.py:386 | A fresh list holds the given items |
| EsClient.ImageDocValueKeys | src/esclient.py:390-395 | An image document has exactly the keys extension, filesize, s3_url and tags, and the image mapping declares each one |
| EsClient.ImageDocValueFields | src/esclient.py:390-395 | It copies the extension, takes the size from the tuple, builds the S3 URL, and lists the tags in order |
| EsClient.ImageDocEntry | src/esclient.py:386-395 | The caller's label list is changed in place into celebrities + texts + labels, which become the tags; when the celebrity list is the label list itself, the spliced list is seen instead |
| EsClient.ImageTagOrder | src/esclient.py:386-388 | Labels [cat, dog], texts [STOP] and celebrities [X] give tags [X, STOP, cat, dog] |
| EsClient.ImageTagsAliased | src/esclient.py:386-388 | Passing the label list as the celebrity list gives [STOP, cat, STOP, cat] |
| EsClient.ESClient.constructor | src/esclient.py:7-19 | The client keeps host, port, index, type and mapping, and its endpoint follows the endpoint rule |
| EsClient.ESClient.Text | src/esclient.py:219-246 | The text client is bound to index `textfilesearch`, type `textfile`, and the text mapping |
| EsClient.ESClient.Image | src/esclient.py:336-359 | The image client is bound to index `imagefilesearch`, type `imagefile`, and the image mapping |
| EsClient.ESClient.PutIndex | src/esclient.py:43-48 | PUT to the index URL; it accepts 200, and 400 too when existing indexes are ignored |
| EsClient.ESClient.DeleteIndex | src/esclient.py:60-65 | DELETE of the index URL; it accepts 200, and 404 too when missing indexes are ignored |
| EsClient.ESClient.PutMapping | src/esclient.py:74-76 | PUT of the mapping to the index's `_mapping/<type>` URL; it accepts only 200 |
| EsClient.ESClient.GetDocument | src/esclient.py:88-90 | GET of the document URL; it accepts only 200 |
| EsClient.ESClient.PutDocument | src/esclient.py:103-105 | PUT of the document to its URL; it accepts only 201 |
| EsClient.ESClient.PutDocumentBulk | src/esclient.py:118-129 | Lists of different lengths fail the assertion before anything is sent; otherwise a POST of the create payload to `_bulk?pretty` that accepts only 200 |
| EsClient.ESClient.DeleteDocument | src/esclient.py:144-149 | DELETE of the document URL; it accepts 200, and 404 too when missing documents are ignored |
| EsClient.ESClient.DeleteDocumentBulk | src/esclient.py:162-170 | POST of the delete payload to `_bulk?pretty`; it accepts only 200 |
| EsClient.ESClient.SearchDocument | src/esclient.py:200-201 | GET of the body to the `_search` URL, with no status check |
| EsClient.ESClient.QueryAll | src/esclient.py:210-217 | GET of a match-all query to the `_search` URL; it accepts only 200 |
| EsClient.ESClient.DeleteDocumentByQuery | src/esclient.py:183-188 | A hit total of 0 or less returns the search response; a positive total bulk-deletes the ids of the listed hits, in order |
| EsClient.ESClient.HighlightSearchRequest | src/esclient.py:314-333 | The highlight search is a GET to `_search` with any status accepted, hits from 0 to `num_of_docs`, the space-joined keywords over content and title, and the fragment settings from the arguments |
| EsClient.ESClient.TagSearchRequest | src/esclient.py:426-442 | The tag search is a GET to `_search` with hits from 0 to `num_of_docs` and one match clause per tag, in tag order |
| EsClient.IsPositive | src/esclient.py:185 | `total > 0` compares an integer, counts a boolean as 0 or 1, and raises a TypeError on anything else |
| EsClient.HitIds | src/esclient.py:186 | Over a list of hits, it succeeds exactly when every hit has an `_id`, and gives those ids in order; a non-empty dict or string, and any scalar, raise a TypeError |
| ClientLex.CreateButton | src/client_lex.py:24-27 | A button is exactly `{text, value}` with the given strings |
| ClientLex.GenericAttachmentKeys | src/client_lex.py:43-54 | An attachment has, in order, title, subTitle, imageUrl, attachmentLinkUrl and buttons, each exactly when its argument is non-empty |
| ClientLex.GenericAttachmentValues | src/client_lex.py:43-54 | Each present key holds its argument |
| ClientLex.GenericAttachmentEmpty | src/client_lex.py:43-54 | All-empty arguments give `{}` |
| ClientLex.MakeOptions | src/client_lex.py:65-67 | The options attachment has no key other than `buttons`, and has that key exactly when there are buttons |
| ClientLex.CardFor | src/client_lex.py:96-101 | A response card is present exactly when there are attachments; it then has version 1, the generic card type and the attachments |
| ClientLex.ResponseClose | src/client_lex.py:84-102 | An unsupported content type fails the assertion; otherwise a Close turn that echoes the session attributes, is Fulfilled exactly on success, carries the message as given, and has a card exactly when there are attachments |
| ClientLex.ResponseElicitSlot | src/client_lex.py:135-156 | It succeeds exactly when the content type is supported and the slot is declared; a non-dict slot map raises an AttributeError; on success an ElicitSlot turn carries the intent, the whole slot map, the slot, the message and a card exactly when there are attachments |
| ClientLex.ReplyJsonShape | src/client_lex.py:85-101 | The reply dict holds the session attributes and the dialog type, and a responseCard key exactly when the reply has a card |
| LambdaLexExample.ValidateSlots | src/lambda_lex_example.py:8-20 | The slots come back unchanged |
| LambdaLexExample.PyStr | src/lambda_lex_example.py:78 | `str` of a string is that string, and of null is `None` |
| LambdaLexExample.ReadTurn | src/lambda_lex_example.py:24-30 | A source other than DialogCodeHook fails the assertion, and a missing source raises its KeyError. After that the session attributes, the bot name, the intent name and the slots are read in that order, and the first one missing raises its KeyError or TypeError. An event holding all of them is read, and the turn echoes the session attributes, the intent name and the slots |
| LambdaLexExample.ButtonsAttachment | src/lambda_lex_example.py:45-50 | An attachment built from buttons alone holds nothing but those buttons |
| LambdaLexExample.SlotsNotADict | src/lambda_lex_example.py:40 | Slots that are not a dict raise an AttributeError |
| LambdaLexExample.AsksForTypeFirst | src/lambda_lex_example.py:40-52 | A missing or null meeting type is asked for first, whatever the other slots hold, with the WebEx and Media Hub buttons; an undeclared type slot fails the assertion |
| LambdaLexExample.AsksForTimeSecond | src/lambda_lex_example.py:54-58 | With the type known, a missing time is asked for next, without a card |
| LambdaLexExample.AsksForRoomLast | src/lambda_lex_example.py:60-74 | For a Room booking with a time, a missing room is asked for, with the 2a, 2b and 4a buttons |
| LambdaLexExample.BooksOtherwise | src/lambda_lex_example.py:76-79 | Otherwise a fulfilled Close turn confirms the type and the time; for a type other than Room the room is never asked for |
| LambdaLexExample.MakeResponse | src/lambda_lex_example.py:22-79 | A reply is produced only for the DialogCodeHook source |
| LambdaLexExample.LambdaHandler | src/lambda_lex_example.py:95-102 | The reply of `make_response`, or for any exception a failed Close turn with empty session attributes, no card and `Sorry! An error occur ` followed by the exception's text |
| LambdaLexExample.OnlyDialogCodeHook | src/lambda_lex_example.py:24-25 | Another source gives the failed Close turn with the bare apology |
| LambdaLexExample.MissingSourceReported | src/lambda_lex_example.py:24 | An event without a source gives the apology followed by `'invocationSource'` |
| LambdaEsIndexing.ExtensionSuffix | src/lambda_es_indexing.py:29 | The extension is the longest dot-free suffix of the key: the whole key without a dot, else what follows the last dot |
| LambdaEsIndexing.ExtensionAfterDot | src/lambda_es_indexing.py:36 | `name.ext` with dot-free parts has extension `ext` |
| LambdaEsIndexing.Keep | src/lambda_es_indexing.py:29 | The filter keeps exactly the tuples whose extension is among the types |
| LambdaEsIndexing.KeepAppend | src/lambda_es_indexing.py:29 | Filtering keeps the order: it distributes over concatenation |
| LambdaEsIndexing.StreamsDisjoint | src/lambda_es_indexing.py:12-13 | No tuple is in both the text stream and the image stream |
| LambdaEsIndexing.UnsupportedDropped | src/lambda_es_indexing.py:52 | A tuple of any other extension is in neither stream |
| LambdaEsIndexing.DocxAndUpperCaseDropped | src/lambda_es_indexing.py:12-13 | `docx` and the upper-case `PDF` are supported by neither stream: the comparison is case-sensitive |
| LambdaEsIndexing.Pids | src/lambda_es_indexing.py:43 | One pid per tuple of the stream, in order |
| LambdaEsIndexing.TextDocs | src/lambda_es_indexing.py:44-49 | One text document per tuple, in order, built from the key, its extension and the extracted text |
| LambdaEsIndexing.ImageDocs | src/lambda_es_indexing.py:61-67 | One image document per tuple, in order, tagged with its celebrities, texts and labels |
| LambdaEsIndexing.Stage | src/lambda_es_indexing.py:41-50 | A stage sends exactly three requests |
| LambdaEsIndexing.PlanLength | src/lambda_es_indexing.py:32-55 | Each stage whose stream is non-empty sends three requests, and the other stages send none |
| LambdaEsIndexing.TextStageShape | src/lambda_es_indexing.py:32-50 | With a text file present, the text client's index, mapping and a bulk payload of the text pids and documents come first |
| LambdaEsIndexing.TextDocsTitled | src/lambda_es_indexing.py:44-49 | A text document is titled by its object key and carries its extension and extracted text |
| LambdaEsIndexing.ImageStageShape | src/lambda_es_indexing.py:55-68 | With an image file present, the image client's index, mapping and bulk payload of the image pids and documents come after the text stage |
| LambdaEsIndexing.NothingToIndex | src/lambda_es_indexing.py:32-55 | Without a supported file, nothing is sent |
| LambdaEsIndexing.Sequenced | src/lambda_es_indexing.py:29-68 | Running the image stage only after the text stage succeeded is the same as running both stages as one list |
| LambdaEsIndexing.SubscriptsPath | src/lambda_es_indexing.py:92-94 | Chained subscripts succeed exactly when the nested path exists, and then reach its value |
| LambdaEsIndexing.First | src/lambda_es_indexing.py:92 | `[0]` succeeds exactly on a non-empty list, and gives its first item |
| LambdaEsIndexing.RecordTupleDescribes | src/lambda_es_indexing.py:92-94 | A message gives a tuple exactly when the first S3 record in its body names that bucket, key and size |
| LambdaEsIndexing.EventTuplesPerRecord | src/lambda_es_indexing.py:92-95 | An event without Records raises a KeyError; otherwise there is one tuple per message, each from that message's first record |
| LambdaEsIndexing.Indexer.constructor | src/lambda_es_indexing.py:15-16 | The two clients are the text and image clients on the configured host, port and region, with the endpoint built from host and port, the indices `textfilesearch` and `imagefilesearch`, the document types `textfile` and `imagefile` and their mappings; nothing has been sent yet |
| LambdaEsIndexing.Indexer.Send | src/esclient.py:43-48 | One request is logged and its status check applied |
| LambdaEsIndexing.Indexer.RunStage | src/lambda_es_indexing.py:41-50 | Index, mapping and bulk are sent in turn, stopping at the first rejection, and the log grows by what was sent |
| LambdaEsIndexing.Indexer.RunText | src/lambda_es_indexing.py:29-50 | The text half sends the text plan, stopping at the first rejection |
| LambdaEsIndexing.Indexer.RunImage | src/lambda_es_indexing.py:52-68 | The image half sends the image plan, stopping at the first rejection |
| LambdaEsIndexing.Indexer.Dispatcher | src/lambda_es_indexing.py:18-75 | The run sends the plan up to the first rejection. It returns 200 and the success body exactly when every status is accepted, and raises an AssertionError otherwise |
| LambdaEsIndexing.Indexer.LambdaHandler | src/lambda_es_indexing.py:88-103 | An exception while reading the records escapes and nothing is sent; otherwise a failure in `dispatcher` gives 500 and the failure body |
| LambdaEsIndexing.ImageDocuments | src/lambda_es_indexing.py:61-67 | Building the image documents one by one, on fresh detector lists, gives the image documents of the stream |

## Left out

- HTTP and the `requests` and `elasticsearch` libraries are not modelled as network I/O. Each request is a value, the responses come from a server function that the caller supplies, and the status codes are that function's outputs.
- ClientElasticsearch.PutDocumentBulk: `elasticsearch.helpers.bulk` is a parameter that says whether Elasticsearch carries out a batch; a batch it does not carry out raises `BulkIndexError` and ends the loop. Partial success inside one batch, the retries of the helper and the counts it returns (the source discards them) are not modelled.
- Request headers (`Content-Type: application/x-ndjson`) are not modelled; only verb, URL and body are.
- `src/fileprocess.py` (S3 `get_object`, PDF and DOCX text extraction) and `src/client_rekognition.py` (label, text and celebrity detection) are function parameters of the indexing hook. Their float confidence filters and any exceptions they raise are not modelled.
- `src/client_comprehend.py`, `src/config.py`, `src/lambda_lex_hook.py` and `src/decoder.py` are not part of this model. The hook's `deserialize_to_dict` is taken to return the event as decoded JSON.
- `ES_BATCH_SIZE` and `ES_INDEX` are imported but never defined, so they are parameters of the model.
- The text model's own request wrappers (`put_index`, `put_mapping`, `put_document`, `get_document`, `delete_document`, `search_document` in `src/client_elasticsearch.py`) are not modelled. They are single calls into the `elasticsearch` library.
- The text model's `mapping` dictionary (`src/client_elasticsearch.py:29-60`) is not modelled. It is a constant that the modelled operations never read.
- The fuzzy slot normalisation is not modelled. `src/lambda_lex_example.py:5` imports `to_validate_text`, which `src/client_lex.py` does not define, so the module cannot be loaded as written. The model assumes the import succeeds, since the only use of the function is commented out.
- `print`, logging and the `__main__` blocks are left out. They are output only.
- JSON floats are not modelled, since no modelled path produces one. `json.dumps` is modelled with default separators and ASCII escaping, without key sorting or float formatting.
- Wrappers.ErrorText: a TypeError, an AttributeError and a BulkIndexError print only their kind, and an IndexError prints the list message. Python's messages also name the types involved, which the model does not track.
- LambdaLexExample.PyStr: `str` of a list or dict is written as `json.dumps` writes it, not as Python's `repr`.
- LambdaEsIndexing.RecordFields: a bucket or key that is not a string, or a size that is not an integer, raises a TypeError here. The source builds the tuple anyway and fails later, if at all.
- LambdaEsIndexing.First: `[0]` on a dict is reported as a TypeError, while Python raises KeyError(0). Both abort the whole mapping.
- EsClient.ESClient.DeleteDocumentByQuery: the response's decoded JSON is a field of the response value; the case where the body does not decode is not modelled.
- LambdaEsIndexing.Indexer.Dispatcher: status checks are the only failures in `dispatcher`. Exceptions from the detectors and from text extraction, which the handler would also turn into status 500, are not modelled.
