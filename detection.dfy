/**
 * What every detector of the new core shares (`ThreadDetector`,
 * `AbstractThreadDetector`, `BaseThreadDetector`): a name, an enabled flag
 * and a confidence threshold fixed at construction, a threshold test, a
 * list filter and the metadata attached to each result.
 *
 * Confidences and thresholds are integer tenths: 0.8 is 8.
 */
module Detection {
  import opened Common

  /** The final fields of `AbstractThreadDetector`. */
  datatype DetectorSettings = DetectorSettings(name: string, enabled: bool, confidenceThreshold: int)

  /** `DetectionMetadata`: four values fixed at construction. */
  datatype DetectionMetadata = DetectionMetadata(
    detectorName: string,
    timestamp: int,
    version: string,
    description: string)

  const VERSION: string := "1.0.0"

  /** `isValidConfidence`: the confidence reaches the threshold. */
  predicate IsValidConfidence(d: DetectorSettings, confidence: int)
  {
    confidence >= d.confidenceThreshold
  }

  /** A confidence above a valid one is valid too. */
  lemma ValidConfidenceUpward(d: DetectorSettings, c: int, c': int)
    requires IsValidConfidence(d, c) && c <= c'
    ensures IsValidConfidence(d, c')
  {
  }

  /** `filterThreads`: exactly the elements satisfying `p`, in their original order. */
  function FilterThreads<T(!new)>(threads: seq<T>, p: T -> bool): (r: seq<T>)
    ensures |r| <= |threads|
    ensures forall x :: x in r <==> x in threads && p(x)
    ensures IsSubsequence(r, threads)
  {
    FilterSpec(threads, p);
    Filter(threads, p)
  }

  /**
   * `createMetadata(description)`: the detector's own name, the clock value
   * `now` (the value `System.currentTimeMillis()` returned), the fixed version.
   */
  function CreateMetadata(d: DetectorSettings, description: string, now: int): (m: DetectionMetadata)
    ensures m.detectorName == d.name && m.timestamp == now
    ensures m.version == VERSION && m.description == description
  {
    DetectionMetadata(d.name, now, VERSION, description)
  }

  /** Metadata differs only in its timestamp between two calls of one detector. */
  lemma MetadataOnlyTimeVaries(d: DetectorSettings, description: string, now: int, later: int)
    ensures CreateMetadata(d, description, later) == CreateMetadata(d, description, now).(timestamp := later)
  {
  }
}
