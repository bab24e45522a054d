/**
 * One uploaded audio file: admission checks, the record's status setters and
 * the processing-readiness predicate (backend/src/models/audio_recording.py).
 */
module Audio {
  import opened Wrappers
  import opened Storage

  datatype AudioProcessingStatus = Uploaded | Transcribing | Transcribed | Analyzing | Processed | Error

  /** 30 MiB. */
  const MaxUploadBytes: nat := 30 * 1024 * 1024

  const AllowedMimeTypes: seq<string> :=
    ["audio/mp3", "audio/mpeg", "audio/wav", "audio/m4a", "audio/mp4", "audio/ogg", "application/octet-stream"]

  /** The `ValueError`s `create_from_upload` raises. */
  datatype UploadError = FileTooLarge(size: nat) | UnsupportedMimeType(mimeType: string)

  /**
   * The checks of `create_from_upload`, in their order: the size first, then
   * the MIME allow-list.  An upload is admitted iff it is at most 30 MiB and
   * its type is listed.
   */
  function AdmissionError(size: nat, mimeType: string): (e: Option<UploadError>)
    ensures e.None? <==> size <= MaxUploadBytes && mimeType in AllowedMimeTypes
    ensures size > MaxUploadBytes ==> e == Some(FileTooLarge(size))
    ensures size <= MaxUploadBytes && mimeType !in AllowedMimeTypes ==> e == Some(UnsupportedMimeType(mimeType))
  {
    if size > MaxUploadBytes then Some(FileTooLarge(size))
    else if mimeType !in AllowedMimeTypes then Some(UnsupportedMimeType(mimeType))
    else None
  }

  class AudioRecording {
    const fileName: string
    const fileSizeBytes: nat
    const mimeType: string
    const uploadTimestamp: int
    var processingStatus: AudioProcessingStatus
    const temporaryPath: Path
    var durationSeconds: Option<int>
    var transcriptionText: Option<string>
    var errorMessage: Option<string>

    /** The dataclass constructor with its defaults. */
    constructor (fileName: string, fileSizeBytes: nat, mimeType: string, uploadTimestamp: int,
                 processingStatus: AudioProcessingStatus, temporaryPath: Path)
      ensures this.fileName == fileName && this.fileSizeBytes == fileSizeBytes && this.mimeType == mimeType
      ensures this.uploadTimestamp == uploadTimestamp && this.processingStatus == processingStatus
      ensures this.temporaryPath == temporaryPath
      ensures durationSeconds == None && transcriptionText == None && errorMessage == None
    {
      this.fileName := fileName;
      this.fileSizeBytes := fileSizeBytes;
      this.mimeType := mimeType;
      this.uploadTimestamp := uploadTimestamp;
      this.processingStatus := processingStatus;
      this.temporaryPath := temporaryPath;
      durationSeconds := None;
      transcriptionText := None;
      errorMessage := None;
    }

    /**
     * `create_from_upload`: both checks run before anything is written, so a
     * rejected upload leaves the filesystem untouched; an admitted one is
     * written to `temporaryPath` and recorded as uploaded.
     */
    static method CreateFromUpload(fs: FileSystem, fileName: string, content: Bytes, mimeType: string,
                                   temporaryPath: Path, now: int)
      returns (r: Result<AudioRecording, UploadError>)
      requires fs.Valid()
      modifies fs
      ensures fs.Valid()
      ensures r.Failure? <==> AdmissionError(|content|, mimeType).Some?
      ensures r.Failure? ==> r.error == AdmissionError(|content|, mimeType).value
      ensures r.Failure? ==> fs.files == old(fs.files) && fs.dirs == old(fs.dirs)
      ensures r.Success? ==> fresh(r.value)
      ensures r.Success? ==> fs.files == old(fs.files)[temporaryPath := content]
      ensures r.Success? ==> fs.dirs == old(fs.dirs) + Prefixes(Parent(temporaryPath))
      ensures r.Success? ==> r.value.processingStatus == Uploaded && r.value.fileSizeBytes == |content|
      ensures r.Success? ==> r.value.fileName == fileName && r.value.mimeType == mimeType
      ensures r.Success? ==> r.value.temporaryPath == temporaryPath && r.value.uploadTimestamp == now
      ensures r.Success? ==> r.value.durationSeconds == None && r.value.transcriptionText == None
      ensures r.Success? ==> r.value.errorMessage == None
    {
      var rejection := AdmissionError(|content|, mimeType);
      if rejection.Some? {
        return Failure(rejection.value);
      }
      fs.MakeDirs(Parent(temporaryPath));
      ParentPrefixes(temporaryPath);
      fs.WriteFile(temporaryPath, content);
      var rec := new AudioRecording(fileName, |content|, mimeType, now, Uploaded, temporaryPath);
      return Success(rec);
    }

    /** `update_status`: the status always changes; the message only when a non-empty one is given. */
    method UpdateStatus(newStatus: AudioProcessingStatus, message: Option<string>)
      modifies this
      ensures processingStatus == newStatus
      ensures message.Some? && message.value != "" ==> errorMessage == message
      ensures message.None? || message.value == "" ==> errorMessage == old(errorMessage)
      ensures durationSeconds == old(durationSeconds) && transcriptionText == old(transcriptionText)
    {
      processingStatus := newStatus;
      if message.Some? && message.value != "" {
        errorMessage := message;
      }
    }

    /** `set_transcription`: stores the text and moves to transcribed from any status. */
    method SetTranscription(text: string)
      modifies this
      ensures transcriptionText == Some(text) && processingStatus == Transcribed
      ensures HasTranscription()
      ensures durationSeconds == old(durationSeconds) && errorMessage == old(errorMessage)
    {
      transcriptionText := Some(text);
      processingStatus := Transcribed;
    }

    /** `set_duration`. */
    method SetDuration(seconds: int)
      modifies this
      ensures durationSeconds == Some(seconds)
      ensures processingStatus == old(processingStatus) && transcriptionText == old(transcriptionText)
      ensures errorMessage == old(errorMessage)
    {
      durationSeconds := Some(seconds);
    }

    /** The `has_transcription` entry of `to_dict`. */
    predicate HasTranscription()
      reads this
      ensures HasTranscription() <==> transcriptionText != None
    {
      transcriptionText.Some?
    }

    /** `is_valid_for_processing`. */
    predicate IsValidForProcessing(fs: FileSystem)
      reads this, fs
      ensures IsValidForProcessing(fs) ==> fileSizeBytes > 0 && temporaryPath in fs.files
      ensures (|| processingStatus == Transcribing || processingStatus == Transcribed
               || processingStatus == Analyzing || processingStatus == Error) ==> !IsValidForProcessing(fs)
      ensures (&& (processingStatus == Uploaded || processingStatus == Processed)
               && fileSizeBytes > 0 && temporaryPath in fs.files) ==> IsValidForProcessing(fs)
    {
      && (processingStatus == Uploaded || processingStatus == Processed)
      && fileSizeBytes > 0
      && temporaryPath in fs.files
    }

    /** `cleanup_files`: afterwards the backing file is gone; a second call changes nothing. */
    method CleanupFiles(fs: FileSystem)
      requires fs.Valid()
      modifies fs
      ensures fs.Valid()
      ensures temporaryPath !in fs.files
      ensures fs.files == old(fs.files) - {temporaryPath} && fs.dirs == old(fs.dirs)
      ensures old(temporaryPath !in fs.files) ==> fs.files == old(fs.files)
      ensures !IsValidForProcessing(fs)
    {
      if temporaryPath in fs.files {
        fs.Unlink(temporaryPath);
      }
    }
  }

  /** An admitted but empty upload can never be processed, whatever its status or file. */
  lemma EmptyUploadNeverProcessable(rec: AudioRecording, fs: FileSystem)
    requires rec.fileSizeBytes == 0
    ensures !rec.IsValidForProcessing(fs)
  {
  }

  /** Exactly 30 MiB is admitted, one byte more is not. */
  lemma SizeLimitIsInclusive(mimeType: string)
    requires mimeType in AllowedMimeTypes
    ensures AdmissionError(MaxUploadBytes, mimeType) == None
    ensures AdmissionError(MaxUploadBytes + 1, mimeType) == Some(FileTooLarge(MaxUploadBytes + 1))
  {
  }
}
