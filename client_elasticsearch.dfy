/** The text-file model of the Elasticsearch client library wrapper: document
    ids, the document shape, size-bounded bulk submission and the keyword
    search request. */
module ClientElasticsearch {
  import opened Wrappers
  import opened Json
  import opened S3
  import Strings
  import QueryBodies

  /** An entity the language service found in the text: its type and its words. */
  datatype Entity = Entity(kind: string, content: string)

  /** The document `formulate_doc` builds. */
  datatype TextDocument = TextDocument(
    title: string,
    extension: string,
    filesize: int,
    s3Url: string,
    content: string,
    entities: seq<Entity>,
    keyPhrases: seq<string>)

  /** The document as the dict that is sent, with its keys in order. */
  function DocumentJson(d: TextDocument): Value
  {
    JObj([
      ("title", JStr(d.title)),
      ("extension", JStr(d.extension)),
      ("filesize", JInt(d.filesize)),
      ("s3_url", JStr(d.s3Url)),
      ("content", JStr(d.content)),
      ("entities", JArr(seq(|d.entities|, i requires 0 <= i < |d.entities| =>
        JObj([("type", JStr(d.entities[i].kind)), ("content", JStr(d.entities[i].content))])))),
      ("key_phrases", JArr(seq(|d.keyPhrases|, i requires 0 <= i < |d.keyPhrases| => JStr(d.keyPhrases[i]))))])
  }

  /** The model's configuration: the index name comes from the environment. */
  datatype TextfileModel = TextfileModel(index: string)

  const ClassName := "TextfileModel"

  /** The document type is the lower-cased class name. */
  function DocType(): (t: string)
    ensures t == "textfilemodel"
  {
    var t := Strings.AsciiLower(ClassName);
    assert t[0] == 't' && t[1] == 'e' && t[2] == 'x' && t[3] == 't' && t[4] == 'f' && t[5] == 'i' && t[6] == 'l'
      && t[7] == 'e' && t[8] == 'm' && t[9] == 'o' && t[10] == 'd' && t[11] == 'e' && t[12] == 'l';
    t
  }

  /** `"--".join(s3_tuple[:2]).replace("/", "-")`. */
  function GetId(t: S3Tuple): string
  {
    Strings.Replace(Strings.Join("--", [t.bucket, t.key]), '/', '-')
  }

  /** The id is the bucket and the key, each with every `/` replaced by `-`,
      separated by `--`; it holds no `/`, and the size plays no part in it. */
  lemma GetIdShape(t: S3Tuple)
    ensures GetId(t) == Strings.Replace(t.bucket, '/', '-') + "--" + Strings.Replace(t.key, '/', '-')
    ensures '/' !in GetId(t)
    ensures forall size :: GetId(S3Tuple(t.bucket, t.key, size)) == GetId(t)
  {
    var r := GetId(t);
    var s := Strings.Replace(t.bucket, '/', '-') + "--" + Strings.Replace(t.key, '/', '-');
    assert Strings.Join("--", [t.bucket, t.key]) == t.bucket + "--" + t.key;
    assert |r| == |s|;
    forall i | 0 <= i < |r| ensures r[i] == s[i] {
      if i < |t.bucket| {
      } else if i < |t.bucket| + 2 {
      } else {
        assert (t.bucket + "--" + t.key)[i] == t.key[i - |t.bucket| - 2];
      }
    }
  }

  /** The id is not injective: keys that differ only in `/` against `-` collide. */
  lemma GetIdCollision()
    ensures GetId(S3Tuple("bucket", "a/b", 1)) == GetId(S3Tuple("bucket", "a-b", 1))
  {
    GetIdShape(S3Tuple("bucket", "a/b", 1));
    GetIdShape(S3Tuple("bucket", "a-b", 1));
    assert Strings.Replace("a/b", '/', '-') == "a-b";
    assert Strings.Replace("a-b", '/', '-') == "a-b";
  }

  /** `formulate_doc`; `region` is the configured AWS region. */
  function FormulateDoc(region: string, title: string, extension: string, t: S3Tuple, content: string,
                        entities: seq<Entity>, keyPhrases: seq<string>): TextDocument
  {
    TextDocument(title, extension, t.size,
      "https://s3-" + region + ".amazonaws.com/" + t.bucket + "/" + t.key,
      content, entities, keyPhrases)
  }

  /** `formulate_doc` with the entity and key-phrase arguments left at their
      defaults. */
  function FormulateDocDefaults(region: string, title: string, extension: string, t: S3Tuple, content: string): TextDocument
  {
    FormulateDoc(region, title, extension, t, content, [], [])
  }

  /** The document copies title, extension and content, takes its size from
      the tuple, and points at the object in the regional S3 endpoint; its
      JSON form has the seven keys in order. */
  lemma FormulateDocFields(region: string, title: string, extension: string, t: S3Tuple, content: string,
                           entities: seq<Entity>, keyPhrases: seq<string>)
    ensures var d := FormulateDoc(region, title, extension, t, content, entities, keyPhrases);
      && d.title == title && d.extension == extension && d.content == content
      && d.filesize == t.size
      && d.s3Url == "https://s3-" + region + ".amazonaws.com/" + t.bucket + "/" + t.key
      && d.entities == entities && d.keyPhrases == keyPhrases
      && var j := DocumentJson(d);
      && j.JObj?
      && Keys(j.members) == ["title", "extension", "filesize", "s3_url", "content", "entities", "key_phrases"]
      && Lookup(j.members, "filesize") == Some(JInt(t.size))
  {
    var j := DocumentJson(FormulateDoc(region, title, extension, t, content, entities, keyPhrases));
    LookupDistinct(j.members, 2);
  }

  /** Left at their defaults, the entity and key-phrase lists are empty. */
  lemma FormulateDocDefaultsEmpty(region: string, title: string, extension: string, t: S3Tuple, content: string)
    ensures var d := FormulateDocDefaults(region, title, extension, t, content);
      d.entities == [] && d.keyPhrases == []
      && d == FormulateDoc(region, title, extension, t, content, d.entities, d.keyPhrases)
  {
  }

  /** One bulk action: where the document goes and the document itself. */
  datatype BulkAction = BulkAction(index: string, docType: string, id: string, source: TextDocument)

  function Action(model: TextfileModel, t: S3Tuple, document: TextDocument): BulkAction
  {
    BulkAction(model.index, DocType(), GetId(t), document)
  }

  /** Python's `zip`: pairs up to the shorter list. */
  function Zip<A, B>(xs: seq<A>, ys: seq<B>): (r: seq<(A, B)>)
    ensures |r| == if |xs| <= |ys| then |xs| else |ys|
    ensures forall i :: 0 <= i < |r| ==> r[i] == (xs[i], ys[i])
  {
    if |xs| == 0 || |ys| == 0 then [] else [(xs[0], ys[0])] + Zip(xs[1..], ys[1..])
  }

  /** The actions for `zip(document_list, s3_tuple_list)`, in order. */
  function BulkActions(model: TextfileModel, documents: seq<TextDocument>, tuples: seq<S3Tuple>): (r: seq<BulkAction>)
    ensures |r| == if |documents| <= |tuples| then |documents| else |tuples|
    ensures forall i :: 0 <= i < |r| ==> r[i] == Action(model, tuples[i], documents[i])
  {
    var pairs := Zip(documents, tuples);
    seq(|pairs|, i requires 0 <= i < |pairs| => Action(model, pairs[i].1, pairs[i].0))
  }

  /** The bulk actions of a batch each carry the model's index, its document
      type, the id of their tuple and their document. */
  lemma BulkActionFields(model: TextfileModel, documents: seq<TextDocument>, tuples: seq<S3Tuple>, i: nat)
    requires i < |documents| && i < |tuples|
    ensures var a := BulkActions(model, documents, tuples)[i];
      a.index == model.index && a.docType == "textfilemodel" && a.id == GetId(tuples[i]) && a.source == documents[i]
  {
  }

  /** The running size the flush rule uses: the declared file sizes of the documents. */
  function Total(b: seq<BulkAction>): int
  {
    if |b| == 0 then 0 else Total(b[..|b| - 1]) + b[|b| - 1].source.filesize
  }

  /** Every non-empty prefix of `b` stays below the threshold. */
  predicate BelowAll(b: seq<BulkAction>, threshold: int)
  {
    forall k :: 1 <= k <= |b| ==> Total(b[..k]) < threshold
  }

  /** A batch flushed inside the loop: the running size first reaches the
      threshold at its last document. */
  predicate Flushed(b: seq<BulkAction>, threshold: int)
  {
    |b| > 0 && BelowAll(b[..|b| - 1], threshold) && Total(b) >= threshold
  }

  /** The batch flushed after the loop: non-empty, and never reached the threshold. */
  predicate Remainder(b: seq<BulkAction>, threshold: int)
  {
    |b| > 0 && BelowAll(b, threshold)
  }

  /** The batches a run submits: every batch but the last was flushed when
      the threshold was reached; the last was either that too or the
      non-empty remainder. */
  predicate WellBatched(batches: seq<seq<BulkAction>>, threshold: int)
  {
    && (forall j :: 0 <= j < |batches| - 1 ==> Flushed(batches[j], threshold))
    && (|batches| > 0 ==> Flushed(batches[|batches| - 1], threshold) || Remainder(batches[|batches| - 1], threshold))
  }

  lemma TotalAppend(b: seq<BulkAction>, a: BulkAction)
    ensures Total(b + [a]) == Total(b) + a.source.filesize
  {
    assert (b + [a])[..|b|] == b;
  }

  /** Adding an action that keeps the running size below the threshold keeps
      every prefix below it. */
  lemma BelowAllAppend(b: seq<BulkAction>, a: BulkAction, threshold: int)
    requires BelowAll(b, threshold) && Total(b + [a]) < threshold
    ensures BelowAll(b + [a], threshold)
  {
    forall k | 1 <= k <= |b| + 1 ensures Total((b + [a])[..k]) < threshold {
      if k <= |b| {
        assert (b + [a])[..k] == b[..k];
      } else {
        assert (b + [a])[..k] == b + [a];
      }
    }
  }

  /** Adding an action that takes the running size to the threshold closes the batch. */
  lemma FlushedAppend(b: seq<BulkAction>, a: BulkAction, threshold: int)
    requires BelowAll(b, threshold) && Total(b + [a]) >= threshold
    ensures Flushed(b + [a], threshold)
  {
    assert (b + [a])[..|b|] == b;
  }

  function Flatten<T>(batches: seq<seq<T>>): seq<T>
  {
    if |batches| == 0 then [] else Flatten(batches[..|batches| - 1]) + batches[|batches| - 1]
  }

  lemma FlattenAppend<T>(batches: seq<seq<T>>, b: seq<T>)
    ensures Flatten(batches + [b]) == Flatten(batches) + b
  {
    assert (batches + [b])[..|batches|] == batches;
  }

  /** Flattening from the front. */
  lemma {:induction false} FlattenCons<T>(batches: seq<seq<T>>)
    requires |batches| > 0
    ensures Flatten(batches) == batches[0] + Flatten(batches[1..])
    decreases |batches|
  {
    if |batches| == 1 {
      assert batches[..0] == [] && batches[1..] == [];
    } else {
      var init := batches[..|batches| - 1];
      FlattenCons(init);
      var rest := batches[1..];
      assert rest[..|rest| - 1] == init[1..];
      assert rest[|rest| - 1] == batches[|batches| - 1];
    }
  }

  /** The first batch starts the flattened run, and the other batches make up the rest. */
  lemma FlattenSplit<T>(batches: seq<seq<T>>)
    requires |batches| > 0
    ensures batches[0] <= Flatten(batches)
    ensures Flatten(batches)[|batches[0]|..] == Flatten(batches[1..])
    ensures |batches| == 1 ==> batches[0] == Flatten(batches)
  {
    FlattenCons(batches);
    assert |batches| == 1 ==> batches[1..] == [];
  }

  lemma DropPrefix<T>(ys: seq<T>, xs: seq<T>, n: nat)
    requires ys <= xs && n <= |ys|
    ensures ys[n..] <= xs[n..]
  {
    assert xs[..|ys|] == ys;
    assert xs[n..][..|ys| - n] == ys[n..];
  }

  /** The state of the submission loop after the actions `done`: the bulk
      calls made so far and the buffer hold them in order, every call made so
      far was flushed at the threshold, and the buffer is still below it. */
  predicate Progress(batches: seq<seq<BulkAction>>, buffer: seq<BulkAction>, done: seq<BulkAction>, threshold: int)
  {
    && Flatten(batches) + buffer == done
    && (forall j :: 0 <= j < |batches| ==> Flushed(batches[j], threshold))
    && BelowAll(buffer, threshold)
  }

  /** An action that takes the running size to the threshold flushes the buffer with it. */
  lemma FlushStep(batches: seq<seq<BulkAction>>, buffer: seq<BulkAction>, done: seq<BulkAction>,
                  action: BulkAction, threshold: int)
    requires Progress(batches, buffer, done, threshold)
    requires Total(buffer) + action.source.filesize >= threshold
    ensures Progress(batches + [buffer + [action]], [], done + [action], threshold)
  {
    TotalAppend(buffer, action);
    FlushedAppend(buffer, action, threshold);
    FlattenAppend(batches, buffer + [action]);
  }

  /** Any other action joins the buffer. */
  lemma KeepStep(batches: seq<seq<BulkAction>>, buffer: seq<BulkAction>, done: seq<BulkAction>,
                 action: BulkAction, threshold: int)
    requires Progress(batches, buffer, done, threshold)
    requires Total(buffer) + action.source.filesize < threshold
    ensures Progress(batches, buffer + [action], done + [action], threshold)
    ensures Total(buffer + [action]) == Total(buffer) + action.source.filesize
  {
    TotalAppend(buffer, action);
    BelowAllAppend(buffer, action, threshold);
  }

  /** After the loop, a non-empty buffer is the remainder call. */
  lemma FinalStep(batches: seq<seq<BulkAction>>, buffer: seq<BulkAction>, done: seq<BulkAction>, threshold: int)
    requires Progress(batches, buffer, done, threshold)
    ensures |buffer| > 0 ==> Flatten(batches + [buffer]) == done && WellBatched(batches + [buffer], threshold)
    ensures |buffer| == 0 ==> Flatten(batches) == done && WellBatched(batches, threshold)
  {
    if |buffer| > 0 {
      FlattenAppend(batches, buffer);
    }
  }

  lemma TakeSnoc<T>(s: seq<T>, i: nat)
    requires i < |s|
    ensures s[..i + 1] == s[..i] + [s[i]]
  {
  }

  /** Every call in `batches` is carried out by `bulk`. */
  predicate AllCarried(batches: seq<seq<BulkAction>>, bulkOk: seq<BulkAction> -> bool)
  {
    |batches| == 0 || (AllCarried(batches[..|batches| - 1], bulkOk) && bulkOk(batches[|batches| - 1]))
  }

  lemma {:induction false} AllCarriedMeans(batches: seq<seq<BulkAction>>, bulkOk: seq<BulkAction> -> bool)
    ensures AllCarried(batches, bulkOk) <==> forall j :: 0 <= j < |batches| ==> bulkOk(batches[j])
  {
    if |batches| > 0 {
      var init := batches[..|batches| - 1];
      AllCarriedMeans(init, bulkOk);
      assert forall j :: 0 <= j < |init| ==> init[j] == batches[j];
    }
  }

  /** One turn of the loop of `put_document_bulk`: the action joins the
      buffer and its size the running total; once the total reaches the
      threshold the buffer goes out as the next bulk call and both start
      afresh. `carried` is false when that call fails. */
  method AddAction(batches: seq<seq<BulkAction>>, buffer: seq<BulkAction>, total: int, action: BulkAction,
                   threshold: int, bulkOk: seq<BulkAction> -> bool, ghost done: seq<BulkAction>)
    returns (batches': seq<seq<BulkAction>>, buffer': seq<BulkAction>, total': int, carried: bool)
    requires Progress(batches, buffer, done, threshold) && total == Total(buffer) && AllCarried(batches, bulkOk)
    ensures Progress(batches', buffer', done + [action], threshold) && total' == Total(buffer')
    ensures total + action.source.filesize >= threshold ==>
      batches' == batches + [buffer + [action]] && buffer' == [] && (carried <==> bulkOk(buffer + [action]))
    ensures total + action.source.filesize < threshold ==>
      batches' == batches && buffer' == buffer + [action] && carried
    ensures carried ==> AllCarried(batches', bulkOk)
    ensures !carried ==>
      && buffer' == [] && |batches'| > 0 && !bulkOk(batches'[|batches'| - 1])
      && AllCarried(batches'[..|batches'| - 1], bulkOk)
  {
    if total + action.source.filesize >= threshold {
      FlushStep(batches, buffer, done, action, threshold);
      batches', buffer', total' := batches + [buffer + [action]], [], 0;
      assert batches'[..|batches|] == batches;
      carried := bulkOk(buffer + [action]);
    } else {
      KeepStep(batches, buffer, done, action, threshold);
      batches', buffer', total', carried := batches, buffer + [action], total + action.source.filesize, true;
    }
  }

  /** `put_document_bulk`: buffers one action per (document, tuple) pair,
      adds the document's declared size to a running total, submits the buffer
      as one bulk call and starts afresh once the total reaches `batchSize`,
      and submits what is left at the end if anything is. `bulkOk` says
      whether `bulk` carries out a batch; when it does not, the exception
      ends the run. The bulk calls are returned in the order they are made,
      the failing one included. */
  method PutDocumentBulk(model: TextfileModel, documents: seq<TextDocument>, tuples: seq<S3Tuple>, batchSize: int,
                         bulkOk: seq<BulkAction> -> bool)
    returns (batches: seq<seq<BulkAction>>, r: Result<(), PyError>)
    ensures WellBatched(batches, batchSize) && Flatten(batches) <= BulkActions(model, documents, tuples)
    ensures r.Ok? <==> AllCarried(batches, bulkOk)
    ensures r.Ok? ==> Flatten(batches) == BulkActions(model, documents, tuples)
    ensures r.Err? ==>
      && r.error == BulkIndexError && |batches| > 0 && !bulkOk(batches[|batches| - 1])
      && AllCarried(batches[..|batches| - 1], bulkOk)
    ensures forall full :: WellBatched(full, batchSize) && Flatten(full) == BulkActions(model, documents, tuples) ==>
      batches == Sent(full, bulkOk) && (r.Ok? <==> AllCarried(full, bulkOk))
  {
    var pairs := Zip(documents, tuples);
    ghost var all := BulkActions(model, documents, tuples);
    var buffer: seq<BulkAction> := [];
    var total := 0;
    batches := [];
    for i := 0 to |pairs|
      invariant Progress(batches, buffer, all[..i], batchSize)
      invariant total == Total(buffer)
      invariant AllCarried(batches, bulkOk)
    {
      var action := Action(model, pairs[i].1, pairs[i].0);
      assert action == all[i];
      TakeSnoc(all, i);
      var carried;
      batches, buffer, total, carried := AddAction(batches, buffer, total, action, batchSize, bulkOk, all[..i]);
      if !carried {
        FailedInLoop(batches, all[..i + 1], all, batchSize, bulkOk);
        return batches, Err(BulkIndexError);
      }
    }
    assert all[..|pairs|] == all;
    FinalStep(batches, buffer, all, batchSize);
    if |buffer| > 0 {
      ghost var made := batches;
      batches := batches + [buffer];
      assert batches[..|made|] == made;
      if !bulkOk(buffer) {
        FailedAtEnd(batches, all, batchSize, bulkOk);
        return batches, Err(BulkIndexError);
      }
    }
    CompletedRun(batches, all, batchSize, bulkOk);
    r := Ok(());
  }

  /** The batches a run sends when the bulk calls succeed as `bulkOk` says:
      those up to and including the first failing one. */
  function Sent(batches: seq<seq<BulkAction>>, bulkOk: seq<BulkAction> -> bool): (r: seq<seq<BulkAction>>)
    ensures r <= batches
    ensures AllCarried(batches, bulkOk) ==> r == batches
  {
    AllCarriedMeans(batches, bulkOk);
    if |batches| == 0 then []
    else if !bulkOk(batches[0]) then [batches[0]]
    else
      AllCarriedMeans(batches[1..], bulkOk);
      assert forall j :: 0 <= j < |batches[1..]| ==> batches[1..][j] == batches[j + 1];
      assert batches == [batches[0]] + batches[1..];
      [batches[0]] + Sent(batches[1..], bulkOk)
  }

  /** A start of the batches whose last batch is the first to fail is what
      is sent. */
  lemma {:induction false} SentUpToFailure(sent: seq<seq<BulkAction>>, full: seq<seq<BulkAction>>,
                                           bulkOk: seq<BulkAction> -> bool)
    requires sent <= full && |sent| > 0 && !bulkOk(sent[|sent| - 1])
    requires AllCarried(sent[..|sent| - 1], bulkOk)
    ensures Sent(full, bulkOk) == sent
    decreases |sent|
  {
    assert full[0] == sent[0];
    if |sent| > 1 {
      var init := sent[..|sent| - 1];
      var rest := sent[1..];
      var restInit := rest[..|rest| - 1];
      AllCarriedMeans(init, bulkOk);
      AllCarriedMeans(restInit, bulkOk);
      assert init[0] == sent[0];
      assert forall j :: 0 <= j < |restInit| ==> restInit[j] == init[j + 1];
      assert rest <= full[1..];
      SentUpToFailure(rest, full[1..], bulkOk);
      assert sent == [sent[0]] + rest;
    }
  }

  /** Batches each flushed at the threshold that cover a start of the
      actions are a start of the well-batched split of all of them. */
  lemma {:induction false} PrefixOfSplit(sent: seq<seq<BulkAction>>, full: seq<seq<BulkAction>>,
                                         xs: seq<BulkAction>, threshold: int)
    requires WellBatched(full, threshold) && Flatten(full) == xs
    requires forall j :: 0 <= j < |sent| ==> Flushed(sent[j], threshold)
    requires Flatten(sent) <= xs
    ensures sent <= full
    decreases |sent|
  {
    if |sent| > 0 {
      FirstSentBatch(sent, full, xs, threshold);
      PrefixOfSplit(sent[1..], full[1..], xs[|sent[0]|..], threshold);
      assert sent == [sent[0]] + sent[1..];
      assert full == [full[0]] + full[1..];
    }
  }

  /** The first of those batches is the first batch of the split, and the
      rest of each covers the remaining actions in the same way. */
  lemma FirstSentBatch(sent: seq<seq<BulkAction>>, full: seq<seq<BulkAction>>, xs: seq<BulkAction>, threshold: int)
    requires WellBatched(full, threshold) && Flatten(full) == xs
    requires |sent| > 0 && forall j :: 0 <= j < |sent| ==> Flushed(sent[j], threshold)
    requires Flatten(sent) <= xs
    ensures |full| > 0 && sent[0] == full[0] && |sent[0]| <= |xs|
    ensures WellBatched(full[1..], threshold) && Flatten(full[1..]) == xs[|sent[0]|..]
    ensures (forall j :: 0 <= j < |sent[1..]| ==> Flushed(sent[1..][j], threshold)) && Flatten(sent[1..]) <= xs[|sent[0]|..]
  {
    FlattenPrefix(sent, xs);
    assert |full| > 0;
    FlattenSplit(full);
    FirstBatchDetermined(sent[0], false, full[0], |full| == 1, xs, threshold);
    WellBatchedTail(full, threshold);
    forall j | 0 <= j < |sent[1..]| ensures Flushed(sent[1..][j], threshold) {
      assert sent[1..][j] == sent[j + 1];
    }
  }

  /** Batches whose flattening starts `xs`: the first starts `xs`, and the
      rest start what follows it. */
  lemma FlattenPrefix<T>(batches: seq<seq<T>>, xs: seq<T>)
    requires |batches| > 0 && Flatten(batches) <= xs
    ensures batches[0] <= xs && Flatten(batches[1..]) <= xs[|batches[0]|..]
  {
    var ys := Flatten(batches);
    var n := |batches[0]|;
    FlattenSplit(batches);
    assert xs[..|ys|] == ys;
    assert xs[..n] == ys[..n] == batches[0];
    DropPrefix(ys, xs, n);
  }

  /** A run whose every bulk call succeeds made the calls of the one
      well-batched split of the actions. */
  lemma CompletedRun(batches: seq<seq<BulkAction>>, xs: seq<BulkAction>, threshold: int, bulkOk: seq<BulkAction> -> bool)
    requires WellBatched(batches, threshold) && Flatten(batches) == xs && AllCarried(batches, bulkOk)
    ensures forall full :: WellBatched(full, threshold) && Flatten(full) == xs ==>
      batches == Sent(full, bulkOk) && AllCarried(full, bulkOk)
  {
    forall full | WellBatched(full, threshold) && Flatten(full) == xs
      ensures batches == full == Sent(full, bulkOk)
    {
      WellBatchedUnique(batches, full, threshold);
    }
  }

  /** A run stopped inside the loop by a failing call sent a start of every
      well-batched split of the actions, ending at its first failing batch. */
  lemma FailedInLoop(batches: seq<seq<BulkAction>>, done: seq<BulkAction>, xs: seq<BulkAction>, threshold: int,
                     bulkOk: seq<BulkAction> -> bool)
    requires Progress(batches, [], done, threshold) && done <= xs
    requires |batches| > 0 && !bulkOk(batches[|batches| - 1]) && AllCarried(batches[..|batches| - 1], bulkOk)
    ensures WellBatched(batches, threshold) && Flatten(batches) <= xs
    ensures forall full :: WellBatched(full, threshold) && Flatten(full) == xs ==>
      batches == Sent(full, bulkOk) && !AllCarried(full, bulkOk)
  {
    assert Flatten(batches) == Flatten(batches) + [] == done;
    forall full | WellBatched(full, threshold) && Flatten(full) == xs
      ensures batches == Sent(full, bulkOk) && !AllCarried(full, bulkOk)
    {
      PrefixOfSplit(batches, full, xs, threshold);
      SentUpToFailure(batches, full, bulkOk);
      FirstFailure(batches, full, bulkOk);
    }
  }

  /** A run whose remainder call fails sent the one well-batched split of
      the actions, whose last call fails. */
  lemma FailedAtEnd(batches: seq<seq<BulkAction>>, xs: seq<BulkAction>, threshold: int, bulkOk: seq<BulkAction> -> bool)
    requires |batches| > 0 && WellBatched(batches, threshold) && Flatten(batches) == xs
    requires !bulkOk(batches[|batches| - 1]) && AllCarried(batches[..|batches| - 1], bulkOk)
    ensures forall full :: WellBatched(full, threshold) && Flatten(full) == xs ==>
      batches == Sent(full, bulkOk) && !AllCarried(full, bulkOk)
  {
    forall full | WellBatched(full, threshold) && Flatten(full) == xs
      ensures batches == Sent(full, bulkOk) && !AllCarried(full, bulkOk)
    {
      WellBatchedUnique(batches, full, threshold);
      SentUpToFailure(batches, full, bulkOk);
    }
  }

  lemma FirstFailure(sent: seq<seq<BulkAction>>, full: seq<seq<BulkAction>>, bulkOk: seq<BulkAction> -> bool)
    requires sent <= full && |sent| > 0 && !bulkOk(sent[|sent| - 1])
    ensures !AllCarried(full, bulkOk)
  {
    AllCarriedMeans(full, bulkOk);
    assert full[|sent| - 1] == sent[|sent| - 1];
  }

  /** A shorter non-empty start of a batch stays below the threshold. */
  lemma PrefixBelow(p: seq<BulkAction>, b: seq<BulkAction>, threshold: int)
    requires 1 <= |p| < |b| && p <= b
    requires Flushed(b, threshold) || Remainder(b, threshold)
    ensures Total(p) < threshold
  {
    assert p == b[..|p|];
    if Flushed(b, threshold) {
      assert b[..|b| - 1][..|p|] == p;
    }
  }

  /** Two batches that both start a well-batched run over the same actions
      are the same batch. */
  lemma FirstBatchDetermined(b1: seq<BulkAction>, last1: bool, b2: seq<BulkAction>, last2: bool,
                             xs: seq<BulkAction>, threshold: int)
    requires b1 <= xs && b2 <= xs
    requires Flushed(b1, threshold) || (last1 && Remainder(b1, threshold) && b1 == xs)
    requires Flushed(b2, threshold) || (last2 && Remainder(b2, threshold) && b2 == xs)
    ensures b1 == b2
  {
    if |b1| < |b2| {
      PrefixBelow(b1, b2, threshold);
      assert false;
    } else if |b2| < |b1| {
      PrefixBelow(b2, b1, threshold);
      assert false;
    }

  }

  lemma WellBatchedTail(batches: seq<seq<BulkAction>>, threshold: int)
    requires WellBatched(batches, threshold) && |batches| > 0
    ensures WellBatched(batches[1..], threshold)
  {
    forall j | 0 <= j < |batches[1..]| - 1 ensures Flushed(batches[1..][j], threshold) {
      assert batches[1..][j] == batches[j + 1];
    }
  }

  /** The flush rule determines the batches: two well-batched runs over the
      same actions make the same bulk calls. */
  lemma {:induction false} WellBatchedUnique(bs1: seq<seq<BulkAction>>, bs2: seq<seq<BulkAction>>, threshold: int)
    requires WellBatched(bs1, threshold) && WellBatched(bs2, threshold)
    requires Flatten(bs1) == Flatten(bs2)
    ensures bs1 == bs2
    decreases |bs1| + |bs2|
  {
    if |bs1| > 0 && |bs2| > 0 {
      SameFirstBatch(bs1, bs2, threshold);
      WellBatchedUnique(bs1[1..], bs2[1..], threshold);
      assert bs1 == [bs1[0]] + bs1[1..];
      assert bs2 == [bs2[0]] + bs2[1..];
    }
  }

  /** Two well-batched runs over the same actions start with the same batch,
      and the rest of each is a well-batched run over the remaining actions. */
  lemma SameFirstBatch(bs1: seq<seq<BulkAction>>, bs2: seq<seq<BulkAction>>, threshold: int)
    requires |bs1| > 0 && |bs2| > 0
    requires WellBatched(bs1, threshold) && WellBatched(bs2, threshold)
    requires Flatten(bs1) == Flatten(bs2)
    ensures bs1[0] == bs2[0] && Flatten(bs1[1..]) == Flatten(bs2[1..])
    ensures WellBatched(bs1[1..], threshold) && WellBatched(bs2[1..], threshold)
  {
    var xs := Flatten(bs1);
    FlattenSplit(bs1);
    FlattenSplit(bs2);
    FirstBatchDetermined(bs1[0], |bs1| == 1, bs2[0], |bs2| == 1, xs, threshold);
    WellBatchedTail(bs1, threshold);
    WellBatchedTail(bs2, threshold);
  }

  /** With a threshold of 5,000,000 and documents of 3,000,000, 3,000,000
      and 1,000,000 bytes, the run flushes after the second document and
      once more at the end for the third alone. */
  lemma ThresholdBoundary(a1: BulkAction, a2: BulkAction, a3: BulkAction, batches: seq<seq<BulkAction>>)
    requires a1.source.filesize == 3000000 && a2.source.filesize == 3000000 && a3.source.filesize == 1000000
    requires WellBatched(batches, 5000000) && Flatten(batches) == [a1, a2, a3]
    ensures batches == [[a1, a2], [a3]]
  {
    var expected := [[a1, a2], [a3]];
    TotalAppend([], a1);
    TotalAppend([a1], a2);
    TotalAppend([], a3);
    assert [a1] + [a2] == [a1, a2] && [] + [a1] == [a1] && [] + [a3] == [a3];
    BelowAllAppend([], a1, 5000000);
    FlushedAppend([a1], a2, 5000000);
    BelowAllAppend([], a3, 5000000);
    assert Flatten(expected) == [a1, a2] + Flatten([[a3]]);
    assert Flatten([[a3]]) == [a3] + Flatten<BulkAction>([]);
    WellBatchedUnique(batches, expected, 5000000);
  }

  /** The search request `search_document_by_keywords` sends. */
  datatype SearchRequest = SearchRequest(index: string, docType: string, body: Value)

  function SearchDocumentByKeywords(model: TextfileModel, keywords: seq<string>, docMaxSize: int,
                                    fragmentCount: int, fragmentLength: int): SearchRequest
  {
    SearchRequest(model.index, DocType(), QueryBodies.HighlightBody(keywords, docMaxSize, fragmentCount, fragmentLength))
  }

  /** With its defaults: 3 documents, 3 fragments of 50 characters. */
  function SearchDocumentByKeywordsDefaults(model: TextfileModel, keywords: seq<string>): SearchRequest
  {
    SearchDocumentByKeywords(model, keywords, 3, 3, 50)
  }

  /** The keyword search goes to the model's index and document type, asks
      for the hits from offset 0 up to `docMaxSize` of them, matches the
      space-joined keywords against content and title, and takes the
      highlight settings from the arguments (by default 3, 3 and 50). */
  lemma KeywordSearchBody(model: TextfileModel, keywords: seq<string>, docMaxSize: int,
                          fragmentCount: int, fragmentLength: int)
    ensures var r := SearchDocumentByKeywords(model, keywords, docMaxSize, fragmentCount, fragmentLength);
      && r.index == model.index && r.docType == "textfilemodel"
      && Path(r.body, ["from"]) == Some(JInt(0))
      && Path(r.body, ["size"]) == Some(JInt(docMaxSize))
      && Path(r.body, ["query", "multi_match", "query"]) == Some(JStr(Strings.Join(" ", keywords)))
      && Path(r.body, ["query", "multi_match", "fields"]) == Some(JArr([JStr("content"), JStr("title")]))
      && Path(r.body, ["highlight", "number_of_fragments"]) == Some(JInt(fragmentCount))
      && Path(r.body, ["highlight", "fragment_size"]) == Some(JInt(fragmentLength))
    ensures SearchDocumentByKeywordsDefaults(model, keywords) == SearchDocumentByKeywords(model, keywords, 3, 3, 50)
  {
    QueryBodies.HighlightBodyPaging(keywords, docMaxSize, fragmentCount, fragmentLength);
    QueryBodies.HighlightBodyQuery(keywords, docMaxSize, fragmentCount, fragmentLength);
    QueryBodies.HighlightBodyHighlight(keywords, docMaxSize, fragmentCount, fragmentLength);
  }
}
