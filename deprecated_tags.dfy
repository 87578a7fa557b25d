/**
 * `getCommentDeprecatedTagDescriptions` of src/index.js: parse a comment with
 * doctrine and keep the description of every tag titled "deprecated".
 */
module DeprecatedTags {
  import opened Results

  /** A tag as doctrine reports it; a missing description is `null` (None). */
  datatype Tag = Tag(title: string, description: Option<string>)

  /** doctrine's `parse(comment, { unwrap: true })`: the comment's tags, or the error it throws. */
  type CommentParser = string -> Result<seq<Tag>, string>

  const DeprecatedTitle := "deprecated"

  predicate IsDeprecated(tag: Tag) {
    tag.title == DeprecatedTitle
  }

  /** `tags.filter(title === 'deprecated').map(description)`. */
  function DeprecatedDescriptions(tags: seq<Tag>): (descriptions: seq<Option<string>>)
    ensures |descriptions| <= |tags|
    ensures forall d :: d in descriptions ==> exists t :: t in tags && IsDeprecated(t) && t.description == d
  {
    if tags == [] then []
    else
      var last := tags[|tags| - 1];
      DeprecatedDescriptions(tags[..|tags| - 1]) + (if IsDeprecated(last) then [last.description] else [])
  }

  /** The number of tags titled "deprecated". */
  function CountDeprecated(tags: seq<Tag>): nat
  {
    if tags == [] then 0 else (if IsDeprecated(tags[0]) then 1 else 0) + CountDeprecated(tags[1..])
  }

  /**
   * The positions of the "deprecated" tags, in increasing order: an
   * independent description of what the filter keeps.
   */
  function DeprecatedPositions(tags: seq<Tag>): (positions: seq<nat>)
    ensures forall k :: 0 <= k < |positions| ==> positions[k] < |tags|
    ensures forall k, l :: 0 <= k < l < |positions| ==> positions[k] < positions[l]
    ensures forall j :: 0 <= j < |tags| ==> (IsDeprecated(tags[j]) <==> j in positions)
  {
    if tags == [] then []
    else
      var n := |tags| - 1;
      var init := DeprecatedPositions(tags[..n]);
      assert forall j :: 0 <= j < n ==> tags[..n][j] == tags[j];
      init + (if IsDeprecated(tags[n]) then [n] else [])
  }

  /** `getCommentDeprecatedTagDescriptions(comment)`; a parser error propagates. */
  function GetCommentDeprecatedTagDescriptions(parse: CommentParser, comment: string): (r: Result<seq<Option<string>>, string>)
    ensures r.Failure? <==> parse(comment).Failure?
    ensures r.Failure? ==> r.error == parse(comment).error
    ensures r.Success? ==> r.value == DeprecatedDescriptions(parse(comment).value)
    ensures r.Success? ==> |r.value| == CountDeprecated(parse(comment).value)
  {
    match parse(comment)
    case Failure(e) => Failure(e)
    case Success(tags) => DescriptionsCount(tags); Success(DeprecatedDescriptions(tags))
  }

  /** Filtering distributes over concatenation: tag order is kept. */
  lemma {:induction false} DescriptionsAppend(a: seq<Tag>, b: seq<Tag>)
    ensures DeprecatedDescriptions(a + b) == DeprecatedDescriptions(a) + DeprecatedDescriptions(b)
  {
    if b != [] {
      var n := |b| - 1;
      assert (a + b)[..|a + b| - 1] == a + b[..n];
      DescriptionsAppend(a, b[..n]);
    } else {
      assert a + b == a;
    }
  }

  /** One description per "deprecated" tag, duplicates included. */
  lemma {:induction false} DescriptionsCount(tags: seq<Tag>)
    ensures |DeprecatedDescriptions(tags)| == CountDeprecated(tags)
  {
    if tags != [] {
      DescriptionsAppend([tags[0]], tags[1..]);
      assert [tags[0]] + tags[1..] == tags;
      assert [tags[0]][..0] == [];
      DescriptionsCount(tags[1..]);
    }
  }

  /**
   * The k-th description is the description of the k-th "deprecated" tag:
   * exactly those tags are kept, in their order, and nothing else.
   */
  lemma {:induction false} DescriptionsAtPositions(tags: seq<Tag>)
    ensures var ds, ps := DeprecatedDescriptions(tags), DeprecatedPositions(tags);
      && |ds| == |ps|
      && forall k :: 0 <= k < |ds| ==> ds[k] == tags[ps[k]].description
  {
    if tags != [] {
      var n := |tags| - 1;
      DescriptionsAtPositions(tags[..n]);
      var ds, ps := DeprecatedDescriptions(tags[..n]), DeprecatedPositions(tags[..n]);
      forall k | 0 <= k < |ds| ensures tags[..n][ps[k]] == tags[ps[k]] { }
    }
  }

  /** A tag with any other title, wherever it stands, changes nothing. */
  lemma OtherTagIgnored(before: seq<Tag>, tag: Tag, after: seq<Tag>)
    requires !IsDeprecated(tag)
    ensures DeprecatedDescriptions(before + [tag] + after) == DeprecatedDescriptions(before + after)
  {
    DescriptionsAppend(before + [tag], after);
    DescriptionsAppend(before, [tag]);
    DescriptionsAppend(before, after);
    assert [tag][..0] == [];
  }
}
