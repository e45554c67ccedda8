/** The detector fallback chain: dlib, then MediaPipe, then the basic OpenCV
    detector. Whether each candidate's import and construction succeeds, fails
    to import, or raises something else is an input. */
module DetectionFactory {
  import opened Wrappers

  datatype DetectorKind = DlibDetector | MediaPipeDetector | BasicOpenCVDetector

  /** The class name of the detector, as `type(detector).__name__` reports it. */
  function TypeName(k: DetectorKind): string
  {
    match k
    case DlibDetector => "DlibDrowsinessDetector"
    case MediaPipeDetector => "MediaPipeDrowsinessDetector"
    case BasicOpenCVDetector => "BasicOpenCVDetector"
  }

  /** What happens when one candidate is tried. */
  datatype Attempt = Loads | ImportFails | Raises(error: string)

  /** What `create_detector` raises: the final ImportError, or another
      exception from a candidate, which is not caught. */
  datatype FactoryError = ImportError(message: string) | Raised(error: string)

  const NoLibrariesMessage := "No computer vision libraries available for detection"

  /** `str()` of what the factory raised. */
  function ErrorText(e: FactoryError): string
  {
    match e
    case ImportError(m) => m
    case Raised(m) => m
  }

  /** The candidates in the order they are tried. */
  function Candidates(dlib: Attempt, mediaPipe: Attempt, basic: Attempt): seq<(DetectorKind, Attempt)>
  {
    [(DlibDetector, dlib), (MediaPipeDetector, mediaPipe), (BasicOpenCVDetector, basic)]
  }

  /** Reference definition of a fallback chain over any list of candidates:
      skip those that fail to import, stop at the first that loads or raises. */
  function FirstAvailable(cs: seq<(DetectorKind, Attempt)>): Result<DetectorKind, FactoryError>
  {
    if cs == [] then Err(ImportError(NoLibrariesMessage))
    else
      match cs[0].1
      case Loads => Ok(cs[0].0)
      case Raises(e) => Err(Raised(e))
      case ImportFails => FirstAvailable(cs[1..])
  }

  /** `DetectionFactory.create_detector`. */
  function CreateDetector(dlib: Attempt, mediaPipe: Attempt, basic: Attempt): (r: Result<DetectorKind, FactoryError>)
    ensures r == Ok(DlibDetector) <==> dlib.Loads?
    ensures r == Ok(MediaPipeDetector) <==> dlib.ImportFails? && mediaPipe.Loads?
    ensures r == Ok(BasicOpenCVDetector) <==> dlib.ImportFails? && mediaPipe.ImportFails? && basic.Loads?
    ensures r.Err? && r.error.ImportError? <==> dlib.ImportFails? && mediaPipe.ImportFails? && basic.ImportFails?
    ensures r.Err? && r.error.ImportError? ==> r.error.message == NoLibrariesMessage
    ensures r.Err? && r.error.Raised? ==>
      || dlib == Raises(r.error.error)
      || (dlib.ImportFails? && mediaPipe == Raises(r.error.error))
      || (dlib.ImportFails? && mediaPipe.ImportFails? && basic == Raises(r.error.error))
  {
    match dlib
    case Loads => Ok(DlibDetector)
    case Raises(e) => Err(Raised(e))
    case ImportFails =>
      match mediaPipe
      case Loads => Ok(MediaPipeDetector)
      case Raises(e) => Err(Raised(e))
      case ImportFails =>
        match basic
        case Loads => Ok(BasicOpenCVDetector)
        case Raises(e) => Err(Raised(e))
        case ImportFails => Err(ImportError(NoLibrariesMessage))
  }

  /** `get_detector`: exactly what the factory returns or raises. */
  function GetDetector(dlib: Attempt, mediaPipe: Attempt, basic: Attempt): (r: Result<DetectorKind, FactoryError>)
    ensures r == CreateDetector(dlib, mediaPipe, basic)
  {
    CreateDetector(dlib, mediaPipe, basic)
  }

  /** The factory is the fallback chain over its three candidates in order. */
  lemma CreateDetectorIsFallbackChain(dlib: Attempt, mediaPipe: Attempt, basic: Attempt)
    ensures CreateDetector(dlib, mediaPipe, basic) == FirstAvailable(Candidates(dlib, mediaPipe, basic))
  {
    var cs := Candidates(dlib, mediaPipe, basic);
    assert cs[1..] == [(MediaPipeDetector, mediaPipe), (BasicOpenCVDetector, basic)];
    assert cs[1..][1..] == [(BasicOpenCVDetector, basic)];
    assert cs[1..][1..][1..] == [];
    if dlib.ImportFails? {
      assert FirstAvailable(cs) == FirstAvailable(cs[1..]);
      if mediaPipe.ImportFails? {
        assert FirstAvailable(cs[1..]) == FirstAvailable(cs[1..][1..]);
        if basic.ImportFails? {
          assert FirstAvailable(cs[1..][1..]) == FirstAvailable([]);
        }
      }
    }
  }

  /** Once a candidate loads or raises, the later ones are never consulted. */
  lemma LaterCandidatesNotTried(dlib: Attempt, mediaPipe: Attempt, basic: Attempt,
                                mediaPipe': Attempt, basic': Attempt)
    ensures !dlib.ImportFails? ==>
      CreateDetector(dlib, mediaPipe, basic) == CreateDetector(dlib, mediaPipe', basic')
    ensures !mediaPipe.ImportFails? ==>
      CreateDetector(dlib, mediaPipe, basic) == CreateDetector(dlib, mediaPipe, basic')
  {
  }
}
