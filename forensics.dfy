/**
 * The verdict part of the image-forensics stage (Pipelines/forensic_analyzer.py):
 * from the four image metrics to the tampering flag and its reasons. The metrics
 * themselves (Laplacian variance, Canny edges, blur residue, JPEG recompression
 * difference) are computed by OpenCV and come in as numbers.
 */
module Forensics {
  import opened Common

  /** The four measurements of a loaded image. */
  datatype Metrics = Metrics(sharpness: real, edgeDensity: real, noiseLevel: real, elaScore: real)

  /** The dict analyze_image_forensics returns. The key `noise_level` is present only
      for an unreadable image, and `tampering_reasons` only for a readable one. */
  datatype ForensicReport = ForensicReport(
    sharpness: real,
    edgeDensity: real,
    noiseLevel: Option<real>,
    elaScore: real,
    tamperingSuspected: bool,
    tamperingReasons: Option<seq<string>>)

  const SharpnessFloor: real := 60.0
  const ElaCeiling: real := 0.25

  /** The reasons, in the order they are appended: low sharpness first, then high ELA. */
  function TamperingReasons(m: Metrics): (r: seq<string>)
    ensures "Low sharpness" in r <==> m.sharpness < SharpnessFloor
    ensures "High ELA" in r <==> m.elaScore > ElaCeiling
    ensures |r| == (if m.sharpness < SharpnessFloor then 1 else 0) + (if m.elaScore > ElaCeiling then 1 else 0)
    ensures |r| == 2 ==> r == ["Low sharpness", "High ELA"]
  {
    (if m.sharpness < SharpnessFloor then ["Low sharpness"] else [])
    + (if m.elaScore > ElaCeiling then ["High ELA"] else [])
  }

  /** analyze_image_forensics, given the metrics of the image or None when it could
      not be read. The first value given to `tampering_suspected` (with an ELA
      threshold of 25) is overwritten before it is used: the flag that is returned
      is "some reason was recorded". */
  method AnalyzeImageForensics(image: Option<Metrics>) returns (report: ForensicReport)
    ensures image.None? ==> report == ForensicReport(0.0, 0.0, Some(0.0), 0.0, false, None)
    ensures image.Some? ==> report.tamperingReasons == Some(TamperingReasons(image.value))
    ensures image.Some? ==> (report.tamperingSuspected <==> TamperingReasons(image.value) != [])
    ensures image.Some? ==>
      && report.sharpness == image.value.sharpness
      && report.edgeDensity == image.value.edgeDensity
      && report.elaScore == image.value.elaScore
      && report.noiseLevel.None?
  {
    if image.None? {
      return ForensicReport(0.0, 0.0, Some(0.0), 0.0, false, None);
    }
    var m := image.value;
    var tamperingSuspected := m.sharpness < 60.0 || m.elaScore > 25.0;
    var tamperingReasons: seq<string> := [];
    if m.sharpness < 60.0 {
      tamperingReasons := tamperingReasons + ["Low sharpness"];
      assert tamperingReasons == ["Low sharpness"];
    }
    if m.elaScore > 0.25 {
      tamperingReasons := tamperingReasons + ["High ELA"];
    }
    assert tamperingReasons == TamperingReasons(m);
    tamperingSuspected := |tamperingReasons| > 0;
    return ForensicReport(m.sharpness, m.edgeDensity, None, m.elaScore, tamperingSuspected, Some(tamperingReasons));
  }

  /** The flag analyze_image_forensics returns for a readable image. */
  predicate Suspected(m: Metrics) {
    TamperingReasons(m) != []
  }

  /** The flag is raised exactly by low sharpness (below 60) or by an ELA score above
      0.25; the threshold of 25 written in the first assignment never takes effect. */
  lemma SuspectedIffLowSharpnessOrHighEla(m: Metrics)
    ensures Suspected(m) <==> m.sharpness < 60.0 || m.elaScore > 0.25
  {
    if m.sharpness < SharpnessFloor {
      assert "Low sharpness" in TamperingReasons(m);
    } else if m.elaScore > ElaCeiling {
      assert "High ELA" in TamperingReasons(m);
    }
  }

  /** A sharp image with an ELA score of 1 is flagged, although 1 is far below 25. */
  lemma SmallElaIsFlagged()
    ensures Suspected(Metrics(100.0, 0.1, 3.0, 1.0))
    ensures !(100.0 < 60.0 || 1.0 > 25.0)
  {
    assert "High ELA" in TamperingReasons(Metrics(100.0, 0.1, 3.0, 1.0));
  }
}
