/**
 * The records exchanged with the image service and returned to clients
 * (pkg/common/types.go), as already-decoded values.
 */
module Types {
  import opened Basics

  /** KandinskyStatusResponse: one decoded answer of the status endpoint. */
  datatype StatusResponse = StatusResponse(
    uuid: string,
    status: string,
    images: seq<string>,
    errorDescription: string,
    censored: bool)

  /** KandinskyGenerateRequest: the parameters of a generation task. */
  datatype GenerateRequest = GenerateRequest(
    kind: string,
    numImages: nat,
    width: nat,
    height: nat,
    query: string)

  /** Prediction: the text of a prediction and the prompts for its images. */
  datatype Prediction = Prediction(text: string, imagePrompts: seq<string>)

  /** PredictionResponse: what a successful prediction request returns. */
  datatype PredictionResponse = PredictionResponse(text: string, images: seq<Bytes>, prompts: seq<string>)

  const StatusDone := "DONE"
  const StatusFailed := "FAILED"
  const StatusCensored := "CENSORED"
}
