/** The stand-in `model`: three `Math.random()` draws, taken here as
    parameters in [0, 1), make a prediction record. */
module Inference {

  /** The record `model` resolves with. `processingTime` is kept as the
      unrounded number of seconds. */
  datatype Prediction = Prediction(prediction: string, confidence: real, processingTime: real)

  /** A value `Math.random()` can return. */
  type Draw = x: real | 0.0 <= x < 1.0

  /** The draws are taken in the order of the source: processing time, label, confidence. */
  function Model(timeDraw: Draw, labelDraw: Draw, confidenceDraw: Draw): (p: Prediction)
    ensures p.prediction == "Cancerous" || p.prediction == "Non-cancerous"
    ensures p.prediction == "Cancerous" <==> labelDraw > 0.5
    ensures 0.0 <= p.confidence < 1.0
    ensures 1.0 <= p.processingTime < 3.0
  {
    var processingTime := timeDraw * 2.0 + 1.0;
    var isCancerous := labelDraw > 0.5;
    Prediction(if isCancerous then "Cancerous" else "Non-cancerous", confidenceDraw, processingTime)
  }
}
