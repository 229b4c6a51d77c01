/**
 * PutFile: one chunk of a file upload. After the registration and
 * required-field checks the chunk is handed to storage; on success the file
 * is registered with the application on the chunk at offset 0 and marked
 * complete on the chunk that ends at the declared length.
 */
module PutFile {
  import opened Wrappers
  import opened Apps

  const UINT32_MODULUS: nat := 0x1_0000_0000

  /** The conversion of an integer to uint32_t: reduction modulo 2^32. */
  function ToUint32(x: int): (r: nat)
    ensures r < UINT32_MODULUS
    ensures 0 <= x < UINT32_MODULUS ==> r == x
    ensures (x - r) % UINT32_MODULUS == 0
  {
    x % UINT32_MODULUS
  }

  /**
   * A PutFile message. `binaryData`, `offsetInParams` and `lengthInParams`
   * describe the message's params (the binary payload and whether an offset
   * or length key sits there); the other fields are its msg_params.
   */
  datatype PutFileMessage = PutFileMessage(
    binaryData: Option<seq<bv8>>,
    offsetInParams: bool,
    lengthInParams: bool,
    syncFileName: Option<string>,
    fileType: Option<string>,
    persistentFile: Option<bool>,
    systemFile: Option<bool>,
    offset: Option<int>,
    length: Option<int>)

  /** One call of the storage collaborator (SaveBinary). */
  datatype SaveCall = SaveCall(appName: string, data: seq<bv8>, path: string, offset: nat)

  /** A required field is missing: the binary data, the file name or the file type. */
  predicate MissingField(m: PutFileMessage) {
    m.binaryData.None? || m.syncFileName.None? || m.fileType.None?
  }

  /** Corrected: the chunk's offset parameter when the request carries one, 0 otherwise. */
  function ChunkOffset(m: PutFileMessage): (offset: nat)
    ensures offset < UINT32_MODULUS
    ensures m.offset.None? ==> offset == 0
    ensures m.offset.Some? && 0 <= m.offset.value < UINT32_MODULUS ==> offset == m.offset.value
  {
    if m.offset.Some? then ToUint32(m.offset.value) else 0
  }

  /** Corrected: the declared total length when the request carries one, the chunk's size otherwise. */
  function ChunkLength(m: PutFileMessage, data: seq<bv8>): (length: nat)
    ensures length < UINT32_MODULUS
    ensures m.length.None? && |data| < UINT32_MODULUS ==> length == |data|
    ensures m.length.Some? && 0 <= m.length.value < UINT32_MODULUS ==> length == m.length.value
  {
    if m.length.Some? then ToUint32(m.length.value) else ToUint32(|data|)
  }

  /**
   * As written: the presence of the offset is tested among params while its
   * value is read from msg_params, so a request's own offset is used only when
   * params also carries an offset key.
   */
  function ChunkOffsetAsWritten(m: PutFileMessage): (offset: nat)
    ensures !m.offsetInParams ==> offset == 0
  {
    if m.offsetInParams && m.offset.Some? then ToUint32(m.offset.value) else 0
  }

  /** As written: the same mismatch for the length, which then falls back to the chunk's size. */
  function ChunkLengthAsWritten(m: PutFileMessage, data: seq<bv8>): (length: nat)
    ensures !m.lengthInParams && |data| < UINT32_MODULUS ==> length == |data|
  {
    if m.lengthInParams && m.length.Some? then ToUint32(m.length.value) else ToUint32(|data|)
  }

  /** The REJECTED response owed to an application in HMI_NONE that reached its PutFile limit. */
  function NoneLevelResponses(level: HmiLevel, count: nat, limit: nat): (r: seq<Response>)
    ensures |r| <= 1
    ensures r != [] <==> level == HmiNone && limit <= count
    ensures r != [] ==> r == [Response(false, Rejected)]
  {
    if level == HmiNone && limit <= count then [Response(false, Rejected)] else []
  }

  /** The file registry after a chunk, whether the chunk added a file, and the response. */
  datatype Outcome = Outcome(files: map<string, AppFile>, added: bool, response: Response)

  /**
   * What storage's answer does to the registry: a saved chunk at offset 0
   * registers the file, and a saved chunk ending at the declared length
   * completes it.
   */
  function ChunkOutcome(files: map<string, AppFile>, name: string, persistent: bool, saveResult: MobileResult,
                        offset: nat, size: nat, length: nat): (o: Outcome)
    // a file is added, and counted, exactly by a saved first chunk of an unknown name
    ensures o.added <==> saveResult == Success && offset == 0 && name !in files
    ensures o.files.Keys == if o.added then files.Keys + {name} else files.Keys
    ensures forall n :: n in files && n != name ==> o.files[n] == files[n]
    // a storage failure is answered verbatim
    ensures saveResult != Success ==> o.response == Response(false, saveResult)
    ensures saveResult == Success && offset == 0 && name in files ==> o.response == Response(false, GenericError)
    ensures saveResult == Success && offset != 0 && offset + size == length && name !in files ==>
      o.response == Response(false, InvalidData)
    ensures o.response.success <==>
      && saveResult == Success
      && !(offset == 0 && name in files)
      && (offset + size == length ==> offset == 0 || name in files)
    ensures o.response.success ==> o.response.code == Success
    // a chunk that is not answered with success changes nothing
    ensures !o.response.success ==> o.files == files && !o.added
    ensures o.response.success && offset + size == length ==> o.files[name] == AppFile(persistent, true)
    ensures o.response.success && offset == 0 && offset + size != length ==> o.files[name] == AppFile(persistent, false)
    ensures o.response.success && offset != 0 && offset + size != length ==> o.files == files
  {
    if saveResult != Success then Outcome(files, false, Response(false, saveResult))
    else if offset == 0 && name in files then Outcome(files, false, Response(false, GenericError))
    else
      var registered := if offset == 0 then files[name := AppFile(persistent, false)] else files;
      if offset + size != length then Outcome(registered, offset == 0, Response(true, Success))
      else if name !in registered then Outcome(registered, false, Response(false, InvalidData))
      else Outcome(registered[name := AppFile(persistent, true)], offset == 0, Response(true, Success))
  }

  /**
   * A whole new file sent as one chunk, with no offset or length key among
   * the params, is registered and completed as written.
   */
  lemma WholeFileInOneChunk(m: PutFileMessage, files: map<string, AppFile>)
    requires !MissingField(m) && !m.offsetInParams && !m.lengthInParams
    requires |m.binaryData.value| < UINT32_MODULUS && m.syncFileName.value !in files
    ensures
      var data := m.binaryData.value;
      var persistent := m.persistentFile.GetOr(false);
      ChunkOutcome(files, m.syncFileName.value, persistent, Success,
                   ChunkOffsetAsWritten(m), |data|, ChunkLengthAsWritten(m, data))
        == Outcome(files[m.syncFileName.value := AppFile(persistent, true)], true, Response(true, Success))
  {
  }

  /**
   * The second byte of a two-byte file, sent after the first registered it:
   * as written it is read as a one-byte chunk at offset 0 and refused with
   * GENERIC_ERROR as a file that already exists; read correctly it is offset
   * 1 of length 2 and completes the file.
   */
  lemma ChunkOffsetIgnoredAsWritten()
    ensures
      var m := PutFileMessage(Some([7]), false, false, Some("icon.png"), Some("GRAPHIC_PNG"),
                              None, None, Some(1), Some(2));
      var files := map["icon.png" := AppFile(false, false)];
      && ChunkOffsetAsWritten(m) == 0 && ChunkLengthAsWritten(m, [7]) == 1
      && ChunkOffset(m) == 1 && ChunkLength(m, [7]) == 2
      && ChunkOutcome(files, "icon.png", false, Success, 0, 1, 1)
           == Outcome(files, false, Response(false, GenericError))
      && ChunkOutcome(files, "icon.png", false, Success, 1, 1, 2)
           == Outcome(map["icon.png" := AppFile(false, true)], false, Response(true, Success))
  {
  }

  class PutFileRequest {
    const msg: PutFileMessage
    /** Calls made to storage so far. */
    var saveCalls: seq<SaveCall>
    /** Responses sent to the mobile application so far. */
    var responses: seq<Response>

    constructor (msg: PutFileMessage)
      ensures this.msg == msg && saveCalls == [] && responses == []
    {
      this.msg := msg;
      saveCalls, responses := [], [];
    }

    /**
     * The HMI_NONE quota, which answers REJECTED but does not stop the
     * request, and the required fields.
     */
    method Admit(app: Application, putFileInNoneLimit: nat) returns (admitted: bool)
      modifies this`responses
      ensures admitted <==> !MissingField(msg)
      ensures responses == old(responses)
        + NoneLevelResponses(app.hmiLevel, app.putFileInNoneCount, putFileInNoneLimit)
        + (if admitted then [] else [Response(false, InvalidData)])
    {
      if app.hmiLevel == HmiNone && putFileInNoneLimit <= app.putFileInNoneCount {
        // no return: the request goes on and a second response follows
        responses := responses + [Response(false, Rejected)];
      }
      if msg.binaryData.None? {
        responses := responses + [Response(false, InvalidData)];
        return false;
      }
      if msg.syncFileName.None? {
        responses := responses + [Response(false, InvalidData)];
        return false;
      }
      if msg.fileType.None? {
        responses := responses + [Response(false, InvalidData)];
        return false;
      }
      return true;
    }

    /**
     * Hands the chunk to storage at `offset` and updates the application's
     * registry as `ChunkOutcome` says, for the declared `length`.
     */
    method SaveChunk(app: Application, directory: string, saveResult: MobileResult, offset: nat, length: nat)
      requires !MissingField(msg)
      modifies this`saveCalls, this`responses, app`files, app`putFileInNoneCount
      ensures
        var data, name := msg.binaryData.value, msg.syncFileName.value;
        var o := ChunkOutcome(old(app.files), name, msg.persistentFile.GetOr(false), saveResult, offset, |data|, length);
        && saveCalls == old(saveCalls) + [SaveCall(app.name, data, directory + "/" + name, offset)]
        && responses == old(responses) + [o.response]
        && app.files == o.files
        && app.putFileInNoneCount == old(app.putFileInNoneCount) + (if o.added then 1 else 0)
    {
      var name := msg.syncFileName.value;
      var data := msg.binaryData.value;
      saveCalls := saveCalls + [SaveCall(app.name, data, directory + "/" + name, offset)];
      if saveResult == Success {
        var persistent := msg.persistentFile.GetOr(false);
        if offset == 0 {
          var added := app.AddFile(name, persistent, false);
          if !added {
            responses := responses + [Response(false, GenericError)];
            return;
          }
          app.IncrementPutFileInNoneCount();
        }
        if offset + |data| == length {
          var updated := app.UpdateFile(name, persistent, true);
          if !updated {
            responses := responses + [Response(false, InvalidData)];
            return;
          }
        }
        responses := responses + [Response(true, saveResult)];
      } else {
        responses := responses + [Response(false, saveResult)];
      }
    }

    /**
     * Handles the chunk for `app` (null when no application is registered for
     * the connection), reading the offset and length as the handler does.
     * `putFileInNoneLimit` is the configured limit for HMI_NONE, `directory`
     * the application's storage directory and `saveResult` what storage answers.
     */
    method Run(app: Application?, putFileInNoneLimit: nat, directory: string, saveResult: MobileResult)
      modifies this`saveCalls, this`responses
      modifies AppFrame(app)`files, AppFrame(app)`putFileInNoneCount
      ensures old(|responses|) + 1 <= |responses| <= old(|responses|) + 2
      ensures app == null ==>
        && responses == old(responses) + [Response(false, ApplicationNotRegistered)]
        && saveCalls == old(saveCalls)
      ensures app != null && MissingField(msg) ==>
        && responses == old(responses)
             + NoneLevelResponses(app.hmiLevel, old(app.putFileInNoneCount), putFileInNoneLimit)
             + [Response(false, InvalidData)]
        && saveCalls == old(saveCalls)
        && app.files == old(app.files) && app.putFileInNoneCount == old(app.putFileInNoneCount)
      ensures app != null && !MissingField(msg) ==>
        var data, name := msg.binaryData.value, msg.syncFileName.value;
        var offset, length := ChunkOffsetAsWritten(msg), ChunkLengthAsWritten(msg, data);
        var o := ChunkOutcome(old(app.files), name, msg.persistentFile.GetOr(false), saveResult, offset, |data|, length);
        && saveCalls == old(saveCalls) + [SaveCall(app.name, data, directory + "/" + name, offset)]
        && responses == old(responses)
             + NoneLevelResponses(app.hmiLevel, old(app.putFileInNoneCount), putFileInNoneLimit)
             + [o.response]
        && app.files == o.files
        && app.putFileInNoneCount == old(app.putFileInNoneCount) + (if o.added then 1 else 0)
    {
      if app == null {
        responses := responses + [Response(false, ApplicationNotRegistered)];
        return;
      }
      var admitted := Admit(app, putFileInNoneLimit);
      if !admitted {
        return;
      }
      SaveChunk(app, directory, saveResult, ChunkOffsetAsWritten(msg), ChunkLengthAsWritten(msg, msg.binaryData.value));
    }

    /** Corrected: `Run` with the offset and length read where the request carries them. */
    method RunCorrected(app: Application?, putFileInNoneLimit: nat, directory: string, saveResult: MobileResult)
      modifies this`saveCalls, this`responses
      modifies AppFrame(app)`files, AppFrame(app)`putFileInNoneCount
      ensures old(|responses|) + 1 <= |responses| <= old(|responses|) + 2
      ensures app == null ==>
        && responses == old(responses) + [Response(false, ApplicationNotRegistered)]
        && saveCalls == old(saveCalls)
      ensures app != null && MissingField(msg) ==>
        && responses == old(responses)
             + NoneLevelResponses(app.hmiLevel, old(app.putFileInNoneCount), putFileInNoneLimit)
             + [Response(false, InvalidData)]
        && saveCalls == old(saveCalls)
        && app.files == old(app.files) && app.putFileInNoneCount == old(app.putFileInNoneCount)
      ensures app != null && !MissingField(msg) ==>
        var data, name := msg.binaryData.value, msg.syncFileName.value;
        var offset, length := ChunkOffset(msg), ChunkLength(msg, data);
        var o := ChunkOutcome(old(app.files), name, msg.persistentFile.GetOr(false), saveResult, offset, |data|, length);
        && saveCalls == old(saveCalls) + [SaveCall(app.name, data, directory + "/" + name, offset)]
        && responses == old(responses)
             + NoneLevelResponses(app.hmiLevel, old(app.putFileInNoneCount), putFileInNoneLimit)
             + [o.response]
        && app.files == o.files
        && app.putFileInNoneCount == old(app.putFileInNoneCount) + (if o.added then 1 else 0)
      // a chunk carrying a non-zero offset never creates a file
      ensures app != null && !MissingField(msg) && msg.offset.Some? && 0 < msg.offset.value < UINT32_MODULUS ==>
        app.files.Keys == old(app.files.Keys)
    {
      if app == null {
        responses := responses + [Response(false, ApplicationNotRegistered)];
        return;
      }
      var admitted := Admit(app, putFileInNoneLimit);
      if !admitted {
        return;
      }
      SaveChunk(app, directory, saveResult, ChunkOffset(msg), ChunkLength(msg, msg.binaryData.value));
    }
  }
}
