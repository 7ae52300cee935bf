/** The search request bodies: a multi-field keyword match with highlighted
    excerpts of the content (both Elasticsearch clients build the same one),
    and a disjunction of one match clause per image tag. */
module QueryBodies {
  import opened Wrappers
  import opened Json
  import Strings

  /** The keyword query string: the keywords joined by single spaces. */
  function QueryText(keywords: seq<string>): string
  {
    Strings.Join(" ", keywords)
  }

  /** `{"from": 0, "size": size, "query": {"multi_match": {"query": ..,
      "fields": ["content", "title"]}}, "highlight": {"number_of_fragments":
      fragments, "fragment_size": fragmentSize, "fields": {"content": {}}}}`. */
  function HighlightBody(keywords: seq<string>, size: int, fragments: int, fragmentSize: int): Value
  {
    JObj([
      ("from", JInt(0)),
      ("size", JInt(size)),
      ("query", JObj([
        ("multi_match", JObj([
          ("query", JStr(QueryText(keywords))),
          ("fields", JArr([JStr("content"), JStr("title")]))]))])),
      ("highlight", JObj([
        ("number_of_fragments", JInt(fragments)),
        ("fragment_size", JInt(fragmentSize)),
        ("fields", JObj([("content", JObj([]))]))]))])
  }

  /** The highlight body has exactly the four top-level keys and asks for
      the hits from the first one on, at most `size` of them. */
  lemma HighlightBodyPaging(keywords: seq<string>, size: int, fragments: int, fragmentSize: int)
    ensures var body := HighlightBody(keywords, size, fragments, fragmentSize);
      && body.JObj? && Keys(body.members) == ["from", "size", "query", "highlight"]
      && Path(body, ["from"]) == Some(JInt(0))
      && Path(body, ["size"]) == Some(JInt(size))
  {
    var top := HighlightBody(keywords, size, fragments, fragmentSize).members;
    LookupDistinct(top, 0);
    LookupDistinct(top, 1);
  }

  /** It matches the space-joined keywords against the content and title fields. */
  lemma HighlightBodyQuery(keywords: seq<string>, size: int, fragments: int, fragmentSize: int)
    ensures var body := HighlightBody(keywords, size, fragments, fragmentSize);
      && Path(body, ["query", "multi_match", "query"]) == Some(JStr(QueryText(keywords)))
      && Path(body, ["query", "multi_match", "fields"]) == Some(JArr([JStr("content"), JStr("title")]))
  {
    var top := HighlightBody(keywords, size, fragments, fragmentSize).members;
    LookupDistinct(top, 2);
    var q := top[2].1;
    LookupDistinct(q.members, 0);
    LookupDistinct(q.members[0].1.members, 0);
    LookupDistinct(q.members[0].1.members, 1);
  }

  /** It highlights the content field only, with the fragment count and the
      fragment length taken from the arguments. */
  lemma HighlightBodyHighlight(keywords: seq<string>, size: int, fragments: int, fragmentSize: int)
    ensures var body := HighlightBody(keywords, size, fragments, fragmentSize);
      && Path(body, ["highlight", "number_of_fragments"]) == Some(JInt(fragments))
      && Path(body, ["highlight", "fragment_size"]) == Some(JInt(fragmentSize))
      && Path(body, ["highlight", "fields"]) == Some(JObj([("content", JObj([]))]))
  {
    var top := HighlightBody(keywords, size, fragments, fragmentSize).members;
    LookupDistinct(top, 3);
    var hl := top[3].1.members;
    LookupDistinct(hl, 0);
    LookupDistinct(hl, 1);
    LookupDistinct(hl, 2);
  }

  /** The engine reads the query string back as the keywords: splitting it on
      spaces gives the list, provided it is not empty and no keyword holds a
      space. An empty list gives the empty query string. */
  lemma QueryTextRoundTrip(keywords: seq<string>)
    requires |keywords| >= 1
    requires forall k :: 0 <= k < |keywords| ==> ' ' !in keywords[k]
    ensures Strings.Split(QueryText(keywords), ' ') == keywords
  {
    Strings.SplitJoin(keywords, ' ');
  }

  function MatchClause(tag: string): Value
  {
    JObj([("match", JObj([("tags", JStr(tag))]))])
  }

  /** `{"from": 0, "size": size, "query": {"bool": {"should": [{"match":
      {"tags": tag}} for tag in tags]}}}`. */
  function TagBody(tags: seq<string>, size: int): Value
  {
    JObj([
      ("from", JInt(0)),
      ("size", JInt(size)),
      ("query", JObj([
        ("bool", JObj([
          ("should", JArr(seq(|tags|, i requires 0 <= i < |tags| => MatchClause(tags[i]))))]))]))])
  }

  /** The tag body asks for the hits from the first one on, at most `size` of them. */
  lemma TagBodyPaging(tags: seq<string>, size: int)
    ensures var body := TagBody(tags, size);
      && body.JObj? && Keys(body.members) == ["from", "size", "query"]
      && Path(body, ["from"]) == Some(JInt(0))
      && Path(body, ["size"]) == Some(JInt(size))
  {
    var top := TagBody(tags, size).members;
    LookupDistinct(top, 0);
    LookupDistinct(top, 1);
  }

  /** The tag body has one match clause per tag, in tag order, so an empty
      tag list gives an empty `should` list. */
  lemma TagBodyClauses(tags: seq<string>, size: int)
    ensures var should := Path(TagBody(tags, size), ["query", "bool", "should"]);
      && should.Some? && should.value.JArr? && |should.value.items| == |tags|
      && (forall i :: 0 <= i < |tags| ==>
            Path(should.value.items[i], ["match", "tags"]) == Some(JStr(tags[i])))
  {
    var should := JArr(seq(|tags|, i requires 0 <= i < |tags| => MatchClause(tags[i])));
    var top := TagBody(tags, size).members;
    LookupDistinct(top, 2);
    assert Path(TagBody(tags, size), ["query", "bool", "should"]) == Some(should);
    forall i | 0 <= i < |tags| ensures Path(should.items[i], ["match", "tags"]) == Some(JStr(tags[i])) {
      assert should.items[i] == MatchClause(tags[i]);
    }
  }
}
