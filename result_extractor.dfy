/// The result extractor of POST /api/restore (server.js:152-165): the image
/// URL in `output.choices[0].message.content` of Qwen's parsed response.

module ResultExtractor {
  import opened JsValues

  /** What extraction ends in: a URL (any truthy value, copied as it is), no
      URL, or a TypeError the handler's inner `catch` turns into a reply. */
  datatype Extraction = Url(url: Json) | NoUrl | ShapeError

  /** What `content.find((c) => c.image)` does on the array `blocks`: stops at
      the first element with a truthy `image`, throws at an earlier `null`
      element (reading `null.image`), or finds nothing. */
  datatype Search = Found(index: nat) | NotFound | Throws(index: nat)

  /** `c.image` is truthy. */
  predicate HasImage(c: Json) {
    Truthy(Member(c, "image"))
  }

  /** `find` reads `c.image` without throwing and moves on. */
  predicate Passes(c: Json) {
    !c.Null? && !Truthy(Member(c, "image"))
  }

  /** `find` passed every block before index `i`. */
  predicate PassedBefore(blocks: seq<Json>, i: int)
    requires 0 <= i <= |blocks|
  {
    forall j :: 0 <= j < i ==> Passes(blocks[j])
  }

  /** Block `i` is the first block with a truthy `image`. */
  predicate FirstImageAt(blocks: seq<Json>, i: int) {
    0 <= i < |blocks| && HasImage(blocks[i]) && PassedBefore(blocks, i)
  }

  /** Block `i` is a `null` that `find` reaches. */
  predicate NullReachedAt(blocks: seq<Json>, i: int) {
    0 <= i < |blocks| && blocks[i].Null? && PassedBefore(blocks, i)
  }

  function FindImage(blocks: seq<Json>): (r: Search)
    ensures r.Found? ==> FirstImageAt(blocks, r.index)
    ensures r.Throws? ==> NullReachedAt(blocks, r.index)
    ensures r.NotFound? <==> PassedBefore(blocks, |blocks|)
  {
    if |blocks| == 0 then NotFound
    else if blocks[0].Null? then Throws(0)
    else if HasImage(blocks[0]) then Found(0)
    else
      match FindImage(blocks[1..])
      case Found(i) => Found(i + 1)
      case Throws(i) => Throws(i + 1)
      case NotFound => NotFound
  }

  /** `json.output?.choices || []`, then `[0]` of it. Not defined for a `null`
      response, where `json.output` throws. A falsy `choices`, an empty array,
      a number and `true` have no first choice; an array gives its first
      element and an object its "0" entry; a non-empty string gives a string,
      which has no `message`. */
  function FirstChoice(json: Json): (r: Value)
    requires !json.Null?
    ensures !Truthy(OptMember(Member(json, "output"), "choices")) ==> r.None?
    ensures Truthy(OptMember(Member(json, "output"), "choices")) ==>
      match OptMember(Member(json, "output"), "choices").value
      case Arr(items) => r == (if |items| > 0 then Some(items[0]) else None)
      case Obj(fields) => r == (if "0" in fields then Some(fields["0"]) else None)
      case Str(s) => (r.Some? <==> |s| > 0) && (r.Some? ==> r.value.Str?)
      case _ => r.None?
  {
    var choices := Or(OptMember(Member(json, "output"), "choices"), Some(Arr([])));
    First(choices.value)
  }

  /** `firstChoice?.message?.content || []`: never `undefined` or `null`. */
  function Content(json: Json): (r: Json)
    requires !json.Null?
    ensures Truthy(Some(r))
    ensures Truthy(OptMember(OptMember(FirstChoice(json), "message"), "content")) ==>
      Some(r) == OptMember(OptMember(FirstChoice(json), "message"), "content")
    ensures !Truthy(OptMember(OptMember(FirstChoice(json), "message"), "content")) ==> r == Arr([])
  {
    Or(OptMember(OptMember(FirstChoice(json), "message"), "content"), Some(Arr([]))).value
  }

  /** `block?.image`, then the `if (!imageUrl)` test. */
  function ImageOf(block: Value): (r: Extraction)
    ensures r != ShapeError
    ensures r.Url? <==> !Nullish(block) && HasImage(block.value)
    ensures r.Url? ==> Member(block.value, "image") == Some(r.url)
  {
    var imageUrl := OptMember(block, "image");
    if Truthy(imageUrl) then Url(imageUrl.value) else NoUrl
  }

  /** The extraction steps in order. The URL is the `image` of the first
      content block of the first choice whose `image` is truthy, taken
      verbatim; with no such block there is no URL, which is not a success;
      a `null` response, a `content` that is not an array, or a `null` block
      reached before the image is a TypeError. */
  function ExtractImageUrl(json: Json): (r: Extraction)
    ensures r.Url? <==>
      !json.Null? && Content(json).Arr? && exists i :: FirstImageAt(Content(json).items, i)
    ensures r.Url? ==>
      !json.Null? && Content(json).Arr? &&
      exists i :: FirstImageAt(Content(json).items, i) && Member(Content(json).items[i], "image") == Some(r.url)
    ensures r.ShapeError? <==>
      json.Null? || !Content(json).Arr? || exists i :: NullReachedAt(Content(json).items, i)
    ensures r.NoUrl? <==>
      !json.Null? && Content(json).Arr? && PassedBefore(Content(json).items, |Content(json).items|)
  {
    if json.Null? then ShapeError
    else
      match Content(json)
      case Arr(blocks) =>
        (match FindImage(blocks)
         case Throws(i) =>
           OnlyOneStop(blocks, i);
           ShapeError
         case Found(i) =>
           OnlyOneStop(blocks, i);
           ImageOf(Or(Some(blocks[i]), First(Arr(blocks))))
         case NotFound =>
           FallbackHasNoUrl(blocks);
           ImageOf(Or(None, First(Arr(blocks)))))
      case _ => ShapeError
  }

  /** `find` stops at one place: a block that is the first with an image or a
      reached `null` rules out every other such block. */
  lemma OnlyOneStop(blocks: seq<Json>, i: nat)
    requires FirstImageAt(blocks, i) || NullReachedAt(blocks, i)
    ensures forall k :: FirstImageAt(blocks, k) ==> k == i
    ensures forall k :: NullReachedAt(blocks, k) ==> k == i
    ensures !PassedBefore(blocks, |blocks|)
  {
    forall k | FirstImageAt(blocks, k) || NullReachedAt(blocks, k)
      ensures k == i
    {
      assert !Passes(blocks[k]) && !Passes(blocks[i]);
    }
    assert !Passes(blocks[i]);
  }

  /** The `|| content[0]` fallback never yields a URL: `find` only misses when
      every block's `image` is falsy, the first block's included. */
  lemma FallbackHasNoUrl(blocks: seq<Json>)
    requires PassedBefore(blocks, |blocks|)
    ensures ImageOf(Or(None, First(Arr(blocks)))) == NoUrl
    ensures forall i :: !FirstImageAt(blocks, i) && !NullReachedAt(blocks, i)
  {
    if |blocks| > 0 {
      assert Passes(blocks[0]);
    }
  }

  /** A response whose `choices` is an empty array has no first choice, so
      there is no URL: the handler answers `no_image_url_in_qwen_output`. */
  lemma EmptyChoicesHaveNoUrl(output: map<string, Json>, fields: map<string, Json>)
    requires "choices" in output && output["choices"] == Arr([])
    ensures ExtractImageUrl(Obj(fields["output" := Obj(output)])) == NoUrl
  {
    var json := Obj(fields["output" := Obj(output)]);
    assert FirstChoice(json).None?;
    assert Content(json) == Arr([]);
  }

  /** Only the first choice is examined: dropping every later choice leaves
      the extraction unchanged. */
  lemma OnlyFirstChoiceMatters(output: map<string, Json>, first: Json, rest: seq<Json>, fields: map<string, Json>)
    requires "choices" in output && output["choices"] == Arr([first] + rest)
    ensures
      var json := Obj(fields["output" := Obj(output)]);
      var trimmed := Obj(fields["output" := Obj(output["choices" := Arr([first])])]);
      ExtractImageUrl(json) == ExtractImageUrl(trimmed)
  {
    var json := Obj(fields["output" := Obj(output)]);
    var trimmed := Obj(fields["output" := Obj(output["choices" := Arr([first])])]);
    assert FirstChoice(json) == Some(first) == FirstChoice(trimmed);
  }
}
