/** The range probabilities are kept in: src/predictor/calibration/postprocess.py and storage.py. */
module Probability {
  /** max(0.01, min(0.99, p)) */
  function Clamp(p: real): (r: real)
    ensures 0.01 <= r <= 0.99
    ensures 0.01 <= p <= 0.99 ==> r == p
  {
    if p < 0.01 then 0.01 else if p > 0.99 then 0.99 else p
  }
}
