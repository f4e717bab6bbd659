/** The shopping assistant (components/AIAssistant.tsx): it sends the chosen
    image to the recommendation service, resolves the product names the model
    answers with against the catalog, and keeps a reason per recommended
    product. */
module AIAssistant {
  import opened Types
  import opened Text
  import opened ImageUploader

  /** One entry of the model's reply. A reply that is not an array reaches the
      component as the empty sequence. */
  datatype Recommendation = Recommendation(productName: string, reason: string)

  /** A recommendation resolved to a catalog product, with the model's reason. */
  datatype Found = Found(product: Product, reason: string)

  // ---------------------------------------------------------------------------
  // Name resolution
  // ---------------------------------------------------------------------------

  /** Two names match when they are equal after lower-casing. */
  predicate SameName(a: string, b: string) {
    Lower(a) == Lower(b)
  }

  /** `products.find(p => p.name.toLowerCase() === name.toLowerCase())`, as the
      index of the product found. */
  function FindByName(products: seq<Product>, name: string): (r: Option<nat>)
    ensures r.None? <==> forall j :: 0 <= j < |products| ==> !SameName(products[j].name, name)
    ensures r.Some? ==> r.value < |products| && SameName(products[r.value].name, name)
    ensures r.Some? ==> forall j :: 0 <= j < r.value ==> !SameName(products[j].name, name)
  {
    if products == [] then None
    else if SameName(products[0].name, name) then Some(0)
    else match FindByName(products[1..], name)
      case None => None
      case Some(k) => Some(k + 1)
  }

  /** The reply resolved against the catalog: each entry whose name matches a
      product becomes that product with the entry's reason, the others are
      dropped. */
  function Resolve(products: seq<Product>, reply: seq<Recommendation>): (r: seq<Found>)
    ensures |r| <= |reply|
    ensures forall f :: f in r ==> f.product in products
  {
    if reply == [] then []
    else
      var rest := Resolve(products, reply[1..]);
      match FindByName(products, reply[0].productName)
        case None => rest
        case Some(k) => [Found(products[k], reply[0].reason)] + rest
  }

  /** How one entry resolves on its own. */
  lemma ResolveOne(products: seq<Product>, rec: Recommendation)
    ensures FindByName(products, rec.productName).None? ==> Resolve(products, [rec]) == []
    ensures FindByName(products, rec.productName).Some? ==>
      var k := FindByName(products, rec.productName).value;
      Resolve(products, [rec]) == [Found(products[k], rec.reason)]
  {
    assert [rec][1..] == [];
  }

  /** Resolution works entry by entry: the order of the reply is kept and
      duplicates are not merged. */
  lemma {:induction false} ResolveAppend(products: seq<Product>, a: seq<Recommendation>, b: seq<Recommendation>)
    ensures Resolve(products, a + b) == Resolve(products, a) + Resolve(products, b)
    decreases |a|
  {
    if a == [] {
      assert a + b == b;
    } else {
      assert (a + b)[1..] == a[1..] + b;
      ResolveAppend(products, a[1..], b);
    }
  }

  /** Nothing resolves exactly when no entry names a catalog product. */
  lemma {:induction false} ResolveEmptyIff(products: seq<Product>, reply: seq<Recommendation>)
    ensures Resolve(products, reply) == [] <==>
      forall i :: 0 <= i < |reply| ==> FindByName(products, reply[i].productName).None?
    decreases |reply|
  {
    if reply != [] {
      ResolveEmptyIff(products, reply[1..]);
      assert forall i :: 1 <= i < |reply| ==> reply[i] == reply[1..][i - 1];
    }
  }

  // ---------------------------------------------------------------------------
  // The reasons map
  // ---------------------------------------------------------------------------

  /** Entry `i` is the last one in `found` for its product id. */
  predicate LastOccurrence(found: seq<Found>, i: nat)
    requires i < |found|
  {
    forall j :: i < j < |found| ==> found[j].product.id != found[i].product.id
  }

  /** Some entry of `found[..n]` carries product id `id`. */
  predicate Mentions(found: seq<Found>, n: nat, id: int)
    requires n <= |found|
  {
    exists i :: 0 <= i < n && found[i].product.id == id
  }

  /** `reasons` is the record built from `found[..n]`: its keys are the ids
      mentioned there and each maps to the reason of its last entry there. */
  ghost predicate ReasonsOf(found: seq<Found>, n: nat, reasons: map<int, string>)
    requires n <= |found|
  {
    (forall id :: id in reasons <==> Mentions(found, n, id)) &&
    forall i :: 0 <= i < n && LastOccurrence(found[..n], i) ==>
      found[i].product.id in reasons && reasons[found[i].product.id] == found[i].reason
  }

  /** One step of the `reduce`: record the reason of entry `n` under its id. */
  lemma ReasonsStep(found: seq<Found>, n: nat, reasons: map<int, string>)
    requires n < |found| && ReasonsOf(found, n, reasons)
    ensures ReasonsOf(found, n + 1, reasons[found[n].product.id := found[n].reason])
  {
    var f, next := found[n], reasons[found[n].product.id := found[n].reason];
    forall i | 0 <= i < n + 1 && LastOccurrence(found[..n + 1], i)
      ensures found[i].product.id in next && next[found[i].product.id] == found[i].reason
    {
      if i < n {
        assert found[..n + 1][n] == f;
        assert LastOccurrence(found[..n], i) by {
          forall j | i < j < n ensures found[..n][j].product.id != found[..n][i].product.id {
            assert found[..n + 1][j] == found[..n][j];
          }
        }
      }
    }
    forall id | id in next ensures Mentions(found, n + 1, id) {
      if id != f.product.id {
        var i :| 0 <= i < n && found[i].product.id == id;
      }
    }
  }

  /** The `reduce` that fills the id-to-reason record: its keys are the ids of
      the found products and each id maps to the reason of its last entry. */
  method BuildReasons(found: seq<Found>) returns (reasons: map<int, string>)
    ensures forall id :: id in reasons <==> Mentions(found, |found|, id)
    ensures forall i :: 0 <= i < |found| && LastOccurrence(found, i) ==>
      found[i].product.id in reasons && reasons[found[i].product.id] == found[i].reason
  {
    reasons := map[];
    var n := 0;
    ReasonsEmpty(found);
    while n < |found|
      invariant 0 <= n <= |found|
      invariant ReasonsOf(found, n, reasons)
    {
      ReasonsStep(found, n, reasons);
      reasons := reasons[found[n].product.id := found[n].reason];
      n := n + 1;
    }
    assert n == |found|;
    ReasonsDone(found, reasons);
  }

  /** Before the first step the record is empty. */
  lemma ReasonsEmpty(found: seq<Found>)
    ensures ReasonsOf(found, 0, map[])
  {
  }

  /** The record built from all of `found`. */
  lemma ReasonsDone(found: seq<Found>, reasons: map<int, string>)
    requires ReasonsOf(found, |found|, reasons)
    ensures forall id :: id in reasons <==> Mentions(found, |found|, id)
    ensures forall i :: 0 <= i < |found| && LastOccurrence(found, i) ==>
      found[i].product.id in reasons && reasons[found[i].product.id] == found[i].reason
  {
    assert found[..|found|] == found;
  }

  // ---------------------------------------------------------------------------
  // The image payload
  // ---------------------------------------------------------------------------

  /** `dataUrl.split(',')[1]`: the text between the first comma and the next
      one (or the end); absent when the data URL has no comma. */
  function Base64Payload(dataUrl: string): (r: Option<string>)
    ensures r.None? <==> ',' !in dataUrl
    ensures r.Some? ==> ',' !in r.value
  {
    match IndexOf(dataUrl, ',')
      case None => None
      case Some(i) =>
        var rest := dataUrl[i + 1..];
        match IndexOf(rest, ',')
          case None => Some(rest)
          case Some(j) => Some(rest[..j])
  }

  /** A data URL `header,payload` yields its payload, whatever follows a
      further comma. */
  lemma Base64PayloadOf(header: string, payload: string, tail: Option<string>)
    requires ',' !in header && ',' !in payload
    ensures var url := header + "," + payload + (if tail.Some? then "," + tail.value else "");
      Base64Payload(url) == Some(payload)
  {
    var after := payload + (if tail.Some? then "," + tail.value else "");
    assert header + "," + payload + (if tail.Some? then "," + tail.value else "") == header + [','] + after;
    IndexOfAfter(header, ',', after);
    assert (header + [','] + after)[|header| + 1..] == after;
    if tail.Some? {
      assert after == payload + [','] + tail.value;
      IndexOfAfter(payload, ',', tail.value);
      assert after[..|payload|] == payload;
    } else {
      assert after == payload;
    }
  }

  // ---------------------------------------------------------------------------
  // The component's state
  // ---------------------------------------------------------------------------

  const InitialPrompt: string := "Find an outfit that matches this style for me."
  const NoImageMessage: string := "Please upload an image first."
  const NothingFoundMessage: string :=
    "I couldn't find any matching products from our collection. Try a different image or prompt!"
  const UnexpectedErrorMessage: string := "An unexpected error occurred."

  /** What is sent to the recommendation service. */
  datatype RecommendationRequest = RecommendationRequest(
    imageData: Option<string>, mimeType: string, prompt: string, products: seq<Product>)

  class Assistant {
    /** The products the assistant may recommend (the `products` prop). */
    const products: seq<Product>
    var imageFile: Option<LocalFile>
    var prompt: string
    var isLoading: bool
    var error: Option<string>
    var recommendations: seq<Found>
    var reasons: map<int, string>

    /** Recommendations are always catalog products, and the reasons are keyed
        by exactly their ids. */
    ghost predicate Valid()
      reads this
    {
      (forall f :: f in recommendations ==> f.product in products) &&
      (forall id :: id in reasons <==> Mentions(recommendations, |recommendations|, id))
    }

    constructor (products: seq<Product>)
      ensures this.products == products
      ensures imageFile == None && prompt == InitialPrompt && !isLoading
      ensures error == None && recommendations == [] && reasons == map[]
      ensures Valid()
    {
      this.products := products;
      imageFile := None;
      prompt := InitialPrompt;
      isLoading := false;
      error := None;
      recommendations := [];
      reasons := map[];
    }

    /** The "Get Recommendations" button is enabled with an image and while no
        request is in flight. */
    predicate CanRequest()
      reads this
    {
      imageFile.Some? && !isLoading
    }

    /** `onImageUpload`: the uploader reports the accepted file, or none. */
    method SetImageFile(file: Option<LocalFile>)
      modifies this
      ensures imageFile == file
      ensures prompt == old(prompt) && isLoading == old(isLoading) && error == old(error)
      ensures recommendations == old(recommendations) && reasons == old(reasons)
    {
      imageFile := file;
    }

    method SetPrompt(text: string)
      modifies this
      ensures prompt == text
      ensures imageFile == old(imageFile) && isLoading == old(isLoading) && error == old(error)
      ensures recommendations == old(recommendations) && reasons == old(reasons)
    {
      prompt := text;
    }

    /** The start of a request: loading, and nothing from an earlier answer
        left on screen. */
    method StartLoading()
      modifies this
      ensures isLoading && error == None && recommendations == [] && reasons == map[]
      ensures imageFile == old(imageFile) && prompt == old(prompt)
      ensures Valid()
      ensures !CanRequest()
    {
      isLoading := true;
      error := None;
      recommendations := [];
      reasons := map[];
    }

    /** `handleGetRecommendations`. `dataUrl` is what reading the image produced
        (`Err` when the reader failed) and `reply` what the service answered
        (`Err` when it threw); `request` is what was sent, if anything. */
    method GetRecommendations(dataUrl: Result<string>, reply: Result<seq<Recommendation>>)
      returns (request: Option<RecommendationRequest>)
      modifies this
      requires Valid()
      ensures Valid()
      ensures imageFile == old(imageFile) && prompt == old(prompt)
      // no image: nothing is sent and nothing else changes
      ensures old(imageFile).None? ==>
        request.None? && error == Some(NoImageMessage) && isLoading == old(isLoading) &&
        recommendations == old(recommendations) && reasons == old(reasons)
      // once a request has started, loading is over on every path
      ensures old(imageFile).Some? ==> !isLoading
      // the request carries the payload of the data URL, the file's type and the prompt
      ensures request.Some? <==> old(imageFile).Some? && dataUrl.Ok?
      ensures request.Some? ==>
        request.value == RecommendationRequest(
          Base64Payload(dataUrl.value), old(imageFile).value.mimeType, old(prompt), products)
      // a failure shows its message, or the generic one
      ensures old(imageFile).Some? && dataUrl.Err? ==>
        error == Some(MessageOr(dataUrl.message, UnexpectedErrorMessage)) && recommendations == [] && reasons == map[]
      ensures old(imageFile).Some? && dataUrl.Ok? && reply.Err? ==>
        error == Some(MessageOr(reply.message, UnexpectedErrorMessage)) && recommendations == [] && reasons == map[]
      // an answer: the resolved products, or the nothing-found message
      ensures old(imageFile).Some? && dataUrl.Ok? && reply.Ok? ==>
        recommendations == Resolve(products, reply.value) &&
        (recommendations == [] <==> error == Some(NothingFoundMessage)) &&
        (recommendations != [] ==> error == None)
      // each product id shown holds the reason of its last entry in the answer
      ensures old(imageFile).Some? && dataUrl.Ok? && reply.Ok? ==>
        forall i :: 0 <= i < |recommendations| && LastOccurrence(recommendations, i) ==>
          recommendations[i].product.id in reasons &&
          reasons[recommendations[i].product.id] == recommendations[i].reason
      // an enabled button sends the request once the image is read, and the
      // button is enabled again when the answer is in
      ensures old(CanRequest()) && dataUrl.Ok? ==> request.Some?
      ensures old(imageFile).Some? ==> CanRequest()
    {
      if imageFile.None? {
        error := Some(NoImageMessage);
        return None;
      }
      StartLoading();
      var file := imageFile.value;
      if dataUrl.Err? {
        error := Some(MessageOr(dataUrl.message, UnexpectedErrorMessage));
        request := None;
      } else {
        request := Some(RecommendationRequest(Base64Payload(dataUrl.value), file.mimeType, prompt, products));
        if reply.Err? {
          error := Some(MessageOr(reply.message, UnexpectedErrorMessage));
        } else {
          var found := Resolve(products, reply.value);
          if |found| == 0 {
            error := Some(NothingFoundMessage);
          } else {
            recommendations := found;
            reasons := BuildReasons(found);
          }
        }
      }
      isLoading := false;
    }
  }

  /** The picker reports a refused image as no image, so the assistant forgets
      the image accepted before it and the next request is refused without
      calling the service. */
  method RefusedImageReplacesAccepted(good: LocalFile, bad: LocalFile,
                                      dataUrl: Result<string>, reply: Result<seq<Recommendation>>)
    returns (error: Option<string>, request: Option<RecommendationRequest>)
    requires CheckImage(good, DefaultMaxSizeMb).Accepted? && CheckImage(bad, DefaultMaxSizeMb).Rejected?
    ensures request.None? && error == Some(NoImageMessage)
  {
    var picker := new Picker(DefaultMaxSizeMb);
    var assistant := new Assistant(Catalog);
    var first := picker.ProcessFile(good);
    assistant.SetImageFile(first);
    var second := picker.ProcessFile(bad);
    assistant.SetImageFile(second);
    request := assistant.GetRecommendations(dataUrl, reply);
    error := assistant.error;
  }
}
