/**
 * The request checks of the session routes (backend/src/api/sessions.py): the
 * preference and duration validators, the upload admission decision of
 * `upload_audio`, and the state precondition of `start_processing`.
 */
module SessionsApi {
  import opened Wrappers
  import W = Workflow
  import Audio

  datatype ValidationError = InvalidVoice | InvalidStyle | InvalidDuration

  const AllowedVoices: seq<string> :=
    ["professional_female", "professional_male", "conversational_female", "conversational_male"]

  const AllowedStyles: seq<string> := ["conversational", "technical", "basic"]

  const DefaultSummaryDuration: int := 20

  /** `validate_voice`: exactly the four listed voices pass, unchanged. */
  function ValidateVoice(v: string): (r: Result<string, ValidationError>)
    ensures r.Success? <==>
      v == "professional_female" || v == "professional_male" ||
      v == "conversational_female" || v == "conversational_male"
    ensures r.Success? ==> r.value == v
    ensures r.Failure? ==> r.error == InvalidVoice
  {
    if v !in AllowedVoices then Failure(InvalidVoice) else Success(v)
  }

  /** `validate_style`: exactly the three listed styles pass, unchanged. */
  function ValidateStyle(v: string): (r: Result<string, ValidationError>)
    ensures r.Success? <==> v == "conversational" || v == "technical" || v == "basic"
    ensures r.Success? ==> r.value == v
    ensures r.Failure? ==> r.error == InvalidStyle
  {
    if v !in AllowedStyles then Failure(InvalidStyle) else Success(v)
  }

  /** `validate_duration`: a summary of 10 to 30 minutes, both ends included. */
  function ValidateDuration(v: int): (r: Result<int, ValidationError>)
    ensures r.Success? <==> 10 <= v <= 30
    ensures r.Success? ==> r.value == v
    ensures r.Failure? ==> r.error == InvalidDuration
  {
    if v < 10 || v > 30 then Failure(InvalidDuration) else Success(v)
  }

  /** The defaults of the request models pass their own validators, and agree with the session's defaults. */
  lemma DefaultsAreValid()
    ensures ValidateVoice(W.DefaultVoice) == Success(W.DefaultVoice)
    ensures ValidateStyle(W.DefaultStyle) == Success(W.DefaultStyle)
    ensures ValidateDuration(DefaultSummaryDuration) == Success(DefaultSummaryDuration)
  {
  }

  /** The durations the contract tests send: 5 and 35 are refused, the bounds themselves accepted. */
  lemma DurationBoundaries()
    ensures ValidateDuration(5).Failure? && ValidateDuration(35).Failure?
    ensures ValidateDuration(9).Failure? && ValidateDuration(31).Failure?
    ensures ValidateDuration(10).Success? && ValidateDuration(30).Success?
  {
  }

  const AllowedExtensions: seq<string> := [".mp3", ".wav", ".m4a", ".mp4", ".ogg"]

  const OctetStream: string := "application/octet-stream"

  /** `str.lower` on one character; only ASCII letters are mapped. */
  function LowerChar(c: char): (l: char)
    ensures 'A' <= c <= 'Z' ==> l as int == c as int + 32
    ensures !('A' <= c <= 'Z') ==> l == c
    ensures !('A' <= l <= 'Z')
  {
    if 'A' <= c <= 'Z' then (c as int + 32) as char else c
  }

  function AsciiLower(s: string): (r: string)
    ensures |r| == |s|
    ensures forall i :: 0 <= i < |s| ==> r[i] == LowerChar(s[i])
  {
    if s == [] then [] else [LowerChar(s[0])] + AsciiLower(s[1..])
  }

  /** Lower-casing twice is lower-casing once. */
  lemma AsciiLowerIdempotent(s: string)
    ensures AsciiLower(AsciiLower(s)) == AsciiLower(s)
  {
    var once := AsciiLower(s);
    assert forall i :: 0 <= i < |once| ==> LowerChar(once[i]) == once[i];
  }

  function EndsWith(s: string, suffix: string): bool
  {
    |suffix| <= |s| && s[|s| - |suffix|..] == suffix
  }

  /** `any(name.endswith(ext) for ext in suffixes)`. */
  function AnyEndsWith(name: string, suffixes: seq<string>): (r: bool)
    ensures r <==> exists i :: 0 <= i < |suffixes| && EndsWith(name, suffixes[i])
  {
    if suffixes == [] then false
    else if EndsWith(name, suffixes[0]) then true
    else
      var rest := AnyEndsWith(name, suffixes[1..]);
      assert forall i :: 1 <= i < |suffixes| ==> suffixes[i] == suffixes[1..][i - 1];
      rest
  }

  /** `is_valid_extension`: the lower-cased name ends in one of the five audio suffixes. */
  function HasAllowedExtension(filename: string): (r: bool)
    ensures r <==> exists ext :: ext in AllowedExtensions && EndsWith(AsciiLower(filename), ext)
  {
    var name := AsciiLower(filename);
    var r := AnyEndsWith(name, AllowedExtensions);
    assert r ==> exists ext :: ext in AllowedExtensions && EndsWith(name, ext) by {
      if r {
        var i :| 0 <= i < |AllowedExtensions| && EndsWith(name, AllowedExtensions[i]);
        assert AllowedExtensions[i] in AllowedExtensions;
      }
    }
    assert (exists ext :: ext in AllowedExtensions && EndsWith(name, ext)) ==> r by {
      if exists ext :: ext in AllowedExtensions && EndsWith(name, ext) {
        var ext :| ext in AllowedExtensions && EndsWith(name, ext);
        var i :| 0 <= i < |AllowedExtensions| && AllowedExtensions[i] == ext;
      }
    }
    r
  }

  /** The test is case-insensitive: lower-casing the name first changes nothing. */
  lemma ExtensionTestIgnoresCase(filename: string)
    ensures HasAllowedExtension(AsciiLower(filename)) == HasAllowedExtension(filename)
  {
    AsciiLowerIdempotent(filename);
  }

  /**
   * The two format guards of `upload_audio`.  Together they refuse exactly
   * the names without an audio suffix whose type is either unlisted or the
   * generic octet stream.
   */
  function FormatRejected(contentType: string, filename: string): (r: bool)
    ensures r <==> !HasAllowedExtension(filename) && (contentType !in Audio.AllowedMimeTypes || contentType == OctetStream)
  {
    || (contentType !in Audio.AllowedMimeTypes && !HasAllowedExtension(filename))
    || (contentType == OctetStream && !HasAllowedExtension(filename))
  }

  /** Why an upload is refused, in the order the handler and the record check it. */
  datatype UploadRejection =
    | NoFilename
    | TooLarge
    | BadFormat
    | RecordRejected(cause: Audio.UploadError)

  /**
   * The admission decision of `upload_audio` for a found session: the name,
   * the 30 MiB ceiling, the route's format guards, then the record's own size
   * and MIME checks in `create_from_upload`.  `None` is an upload that yields
   * a record.  Which HTTP status each refusal ends up as is not modelled.
   */
  function UploadDecision(filename: string, size: nat, contentType: string): (r: Option<UploadRejection>)
    ensures r.None? <==>
      && filename != ""
      && size <= Audio.MaxUploadBytes
      && contentType in Audio.AllowedMimeTypes
      && (contentType != OctetStream || HasAllowedExtension(filename))
    ensures filename == "" ==> r == Some(NoFilename)
    ensures filename != "" && size > Audio.MaxUploadBytes ==> r == Some(TooLarge)
    ensures r == Some(BadFormat) ==> FormatRejected(contentType, filename)
    ensures r.Some? && r.value.RecordRejected? ==> r.value.cause == Audio.UnsupportedMimeType(contentType)
  {
    if filename == "" then Some(NoFilename)
    else if size > Audio.MaxUploadBytes then Some(TooLarge)
    else if FormatRejected(contentType, filename) then Some(BadFormat)
    else match Audio.AdmissionError(size, contentType)
      case Some(e) => Some(RecordRejected(e))
      case None => None
  }

  /**
   * A name that ends in `.mp3` (in any letter case) sent with a type outside
   * the allow-list, `text/plain` say, gets past the route's guards on its
   * suffix but is then refused by the record's MIME check.
   */
  lemma SuffixPassesRouteButNotRecord(filename: string, size: nat, contentType: string)
    requires filename != "" && size <= Audio.MaxUploadBytes
    requires EndsWith(AsciiLower(filename), ".mp3")
    requires contentType !in Audio.AllowedMimeTypes
    ensures !FormatRejected(contentType, filename)
    ensures UploadDecision(filename, size, contentType) == Some(RecordRejected(Audio.UnsupportedMimeType(contentType)))
  {
    assert ".mp3" in AllowedExtensions;
  }

  /** The concrete case: `talk.mp3` sent as `text/plain` reaches the record check and is refused there. */
  lemma PlainTextMp3RefusedByRecord(size: nat)
    requires size <= Audio.MaxUploadBytes
    ensures UploadDecision("talk.mp3", size, "text/plain") == Some(RecordRejected(Audio.UnsupportedMimeType("text/plain")))
  {
    var lowered := AsciiLower("talk.mp3");
    assert lowered[4] == '.' && lowered[5] == 'm' && lowered[6] == 'p' && lowered[7] == '3';
    assert lowered[4..] == ".mp3";
    SuffixPassesRouteButNotRecord("talk.mp3", size, "text/plain");
  }

  /** A generic octet stream of admissible size is admitted exactly when its name has an audio suffix. */
  lemma OctetStreamNeedsSuffix(filename: string, size: nat)
    requires filename != "" && size <= Audio.MaxUploadBytes
    ensures UploadDecision(filename, size, OctetStream) == None <==> HasAllowedExtension(filename)
    ensures !HasAllowedExtension(filename) ==> UploadDecision(filename, size, OctetStream) == Some(BadFormat)
  {
  }

  /**
   * The state check of `start_processing`: only after an upload or added
   * content.  Those are the legal predecessors of `Processing` other than
   * `Error`, so the transition the route then requests is always legal.
   */
  function ReadyForProcessing(state: W.WorkflowState): (r: bool)
    ensures r <==> W.IsValidTransition(state, W.Processing) && state != W.Error
  {
    state == W.AudioUploaded || state == W.ContentAdded
  }
}
