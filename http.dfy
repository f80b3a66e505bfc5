/** What the request handlers receive and answer, reduced to values: the
    uploaded file, the content-type gate and the outcome of a request. */
module Http {
  import opened Text
  import opened Imaging

  /** An uploaded file: its name, its declared media type and its bytes. */
  datatype Upload = Upload(filename: string, contentType: string, content: seq<byte>)

  /** The only validation any handler performs: the declared media type must
      start with `image/`. Size and dimensions are never checked. */
  predicate IsImage(contentType: string)
    ensures IsImage(contentType) <==> |contentType| >= 6 && contentType[..6] == "image/"
  {
    StartsWith(contentType, "image/")
  }

  /** The gate compares the raw media type: it is case-sensitive and needs the
      slash, and any subtype passes. */
  lemma GateExamples()
    ensures IsImage("image/jpeg") && IsImage("image/")
    ensures !IsImage("Image/jpeg") && !IsImage("image") && !IsImage("text/plain")
  {
    assert "Image/jpeg"[..6] != "image/" by { assert "Image/jpeg"[0] == 'I'; }
    assert "text/plain"[..6] != "image/" by { assert "text/plain"[0] == 't'; }
  }

  /** The outcome of a request: a response body, an HTTP error the handler
      raises on purpose (status and detail), or an exception the handler does
      not catch, which the framework answers with a generic server error. */
  datatype Response<B> =
    | Ok(body: B)
    | HttpError(status: nat, detail: string)
    | Unhandled(error: string)

  /** The single-prediction response record: exactly these four fields. */
  datatype Prediction<S> = Prediction(
    filename: string,
    predictedClass: string,
    confidence: real,
    staticData: S)
}
