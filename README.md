# SetGlobalProperties, PutFile and DeleteCommand handlers of the SDL application manager

This project models three command handlers of the SmartDeviceLink core
application manager and proves what they do to the application's state and
which responses and HMI requests they emit.

- **SetGlobalPropertiesRequest** (module `SetGlobalProperties`). It validates a
  mobile request through a fixed chain of early exits: the application must be
  registered, at least one of the seven optional parameters must be present,
  the image check must pass, and a non-navigation application may not send
  the menu title, the menu icon or keyboard properties. The VR help title and
  the VR help list must come together. A supplied list must be numbered
  1, 2, ..., n. When neither is supplied, a default list is built from the
  application's commands in ascending id order. The handler then records the
  VR help and the present prompts in the application. It always sends
  UI.SetGlobalProperties, and it sends TTS.SetGlobalProperties only when a
  prompt is present. Each UI or TTS reply is written into its own result slot
  and answered at once from both slots by a fixed reducer.
- **PutFileRequest** (module `PutFile`). It handles one chunk of a file
  upload. It checks registration and the HMI_NONE quota, which answers
  REJECTED without stopping. It checks the required fields, then hands the
  chunk to storage. After a successful save, the chunk at offset 0 registers
  the file and counts towards the quota. The chunk that ends at the declared
  length marks the file complete.
- **DeleteCommandResponse** (module `DeleteCommand`). It handles one HMI reply
  to a DeleteCommand through the message chain that the request left behind.
  The chain holds the number of outstanding replies, a UI and a VR result
  slot, and the application and command to finish with. Only the reply that
  completes the chain changes the command. It erases the menu and/or the VR
  synonyms according to the slots. When both are gone, it removes the
  command and answers SUCCESS.

Shared state lives in module `Apps`:
- the result codes;
- the `Application` class, with its commands map, VR help, prompts, file
  registry and PutFile counter;
- the `ApplicationManager` class, with the application table and the
  message-chain table.

The application and the three handlers are classes whose fields the
operations update in place. The responses, HMI requests and storage calls
each handler emits are recorded in `seq` fields.

## Model

| member | source | states |
|---|---|---|
| Apps.FromHmi | src/components/application_manager/src/commands/mobile/set_global_properties_request.cc:306-311 | Casting an HMI code to a mobile code gives SUCCESS exactly for HMI SUCCESS. It never gives WARNINGS, but only because the encoding keeps every other cast code apart from the named mobile codes (see Left out) |
| Apps.Application.AddFile | src/components/application_manager/src/commands/mobile/put_file_request.cc:137-142 | Adding succeeds exactly when no file of that name exists; only then is the file recorded, with its persistence and completion flags |
| Apps.Application.UpdateFile | src/components/application_manager/src/commands/mobile/put_file_request.cc:147-151 | Updating succeeds exactly when the application knows the file; only then is its record rewritten |
| Apps.Application.IncrementPutFileInNoneCount | src/components/application_manager/src/commands/mobile/put_file_request.cc:143 | The HMI_NONE PutFile counter grows by one |
| Apps.Application.RemoveCommand | src/components/application_manager/src/commands/delete_command_response.cc:116-117 | The command id leaves the catalogue; every other command stays |
| Apps.MinId | src/components/application_manager/src/commands/mobile/set_global_properties_request.cc:162-167 | The first id a std::map walk visits is a member of the map and no larger than any other member |
| Apps.SortedIdsSpec | src/components/application_manager/src/commands/mobile/set_global_properties_request.cc:162-167 | The walk over the commands map visits exactly the map's ids, in strictly ascending order |
| Apps.SortedIdsLength | src/components/application_manager/src/commands/mobile/set_global_properties_request.cc:162-177 | The walk takes one step per command |
| Apps.ApplicationManager.DecreaseMessageChain | src/components/application_manager/src/commands/delete_command_response.cc:90-96 | Reports completion exactly when the chain was awaiting its last reply, and then discards it; otherwise decrements the count; an unknown id changes nothing; every live chain keeps awaiting a reply |
| SetGlobalProperties.ValidateConditionalMandatoryParameters | src/components/application_manager/src/commands/mobile/set_global_properties_request.cc:325-334 | The check fails exactly for the request that carries none of the seven optional parameters |
| SetGlobalProperties.CheckVrHelpItemsOrder | src/components/application_manager/src/commands/mobile/set_global_properties_request.cc:236-260 | True exactly when the list is non-empty and its positions are 1, 2, ..., n |
| SetGlobalProperties.BuildDefaultVrHelp | src/components/application_manager/src/commands/mobile/set_global_properties_request.cc:161-177 | A list is built exactly when every command has VR synonyms. Item k then has position k + 1 and the first synonym of the k-th command in ascending id order |
| SetGlobalProperties.DefaultVrHelpInOrder | src/components/application_manager/src/commands/mobile/set_global_properties_request.cc:161-180 | The default VR help built from a non-empty commands map passes the order check |
| SetGlobalProperties.Rejection | src/components/application_manager/src/commands/mobile/set_global_properties_request.cc:77-209 | A rejection is never SUCCESS. Each early exit has its own code, given that the earlier checks pass: no parameter present gives INVALID_DATA; a failed image check gives its own code; navigation-only keys from a non-navigation app give INVALID_DATA; exactly one of title and list, or a list out of order, gives REJECTED; neither, with a command lacking VR synonyms, gives INVALID_DATA. The request passes exactly when the parameters are present, the images check out, navigation-only keys come only from navigation apps, title and list come together, a supplied list is in order and, otherwise, every command has VR synonyms |
| SetGlobalProperties.ReachesVrHelpCheck | src/components/application_manager/src/commands/mobile/set_global_properties_request.cc:77-122 | The checks before the VR help pass: parameters present, images verified, navigation-only keys only from a navigation app |
| SetGlobalProperties.Max | src/components/application_manager/src/commands/mobile/set_global_properties_request.cc:306-311 | std::max: the result is one of the two codes and no smaller than either |
| SetGlobalProperties.Reduce | src/components/application_manager/src/commands/mobile/set_global_properties_request.cc:289-312 | Success exactly when (ui SUCCESS and tts SUCCESS, UNSUPPORTED_RESOURCE or INVALID_ENUM) or (ui INVALID_ENUM and tts SUCCESS). The code is WARNINGS exactly when successful with tts UNSUPPORTED_RESOURCE, and the cast of max(ui, tts) otherwise, so always one of the two codes or WARNINGS. A success carries SUCCESS or WARNINGS, and a failure over codes from INVALID_ENUM up is never SUCCESS |
| SetGlobalProperties.SetGlobalPropertiesRequest.constructor | src/components/application_manager/src/commands/mobile/set_global_properties_request.cc:46-55 | All send and receive flags are false; both result slots are INVALID_ENUM; nothing has been emitted |
| SetGlobalProperties.SetGlobalPropertiesRequest.Run | src/components/application_manager/src/commands/mobile/set_global_properties_request.cc:60-234 | No app gives exactly APPLICATION_NOT_REGISTERED. A rejection sends exactly its one failure response, emits no HMI request and leaves VR help and prompts unchanged. Otherwise no response is sent yet, the VR help is the supplied pair or the app name with the default list, only the present prompts are written, UI is requested exactly once and TTS exactly when a prompt is present |
| SetGlobalProperties.SetGlobalPropertiesRequest.OnEvent | src/components/application_manager/src/commands/mobile/set_global_properties_request.cc:262-316 | A UI reply sets only the UI received flag and slot, a TTS reply only the TTS pair. An unknown function changes nothing and sends nothing. Every recognised reply sends one response, the reduction of the current slots |
| SetGlobalProperties.RepliesInEitherOrder | src/components/application_manager/src/commands/mobile/set_global_properties_request.cc:268-316 | With a UI and a TTS reply in either order, each is answered at once: the first from its own slot with the other still INVALID_ENUM, the second with the reduction of both codes, whatever the order |
| SetGlobalProperties.SetGlobalPropertiesRequest.IsPendingResponseExist | src/components/application_manager/src/commands/mobile/set_global_properties_request.cc:320-323 | As written: with the send flags never set, a response counts as pending exactly when some reply has been received |
| SetGlobalProperties.SetGlobalPropertiesRequest.HasPendingResponse | src/components/application_manager/src/commands/mobile/set_global_properties_request.cc:320-323 | Corrected: when no reply arrived unrequested, a response is pending exactly when a request was emitted whose reply has not arrived |
| SetGlobalProperties.PendingResponseMisreported | src/components/application_manager/src/commands/mobile/set_global_properties_request.cc:49-50 | After the UI request is emitted and before any reply, the as-written check reports nothing pending while the corrected one reports a pending response |
| PutFile.ToUint32 | src/components/application_manager/src/commands/mobile/put_file_request.cc:97-106 | The uint32_t conversion lands below 2^32, keeps values already in range and agrees with its input modulo 2^32 |
| PutFile.ChunkOffset | src/components/application_manager/src/commands/mobile/put_file_request.cc:97-101 | Corrected: the offset is 0 when the request carries none, and the request's offset when it carries one in range |
| PutFile.ChunkLength | src/components/application_manager/src/commands/mobile/put_file_request.cc:102-106 | Corrected: the length is the chunk's size when the request carries none, and the request's length when it carries one in range |
| PutFile.ChunkOffsetAsWritten | src/components/application_manager/src/commands/mobile/put_file_request.cc:97-101 | As written: without an offset key among the message's params the offset is 0, whatever msg_params holds |
| PutFile.ChunkLengthAsWritten | src/components/application_manager/src/commands/mobile/put_file_request.cc:102-106 | As written: without a length key among the message's params the length is the chunk's size, whatever msg_params holds |
| PutFile.ChunkOffsetIgnoredAsWritten | src/components/application_manager/src/commands/mobile/put_file_request.cc:97-106 | The second byte of a two-byte file, sent after the first byte registered it: as written it is read as a one-byte chunk at offset 0 and refused with GENERIC_ERROR; read correctly it is offset 1 of length 2 and completes the file |
| PutFile.MissingField | src/components/application_manager/src/commands/mobile/put_file_request.cc:72-88 | Definition, used by the contracts of `Admit`, `Run` and `RunCorrected`: the request lacks its binary data, its file name or its file type |
| PutFile.ChunkOutcome | src/components/application_manager/src/commands/mobile/put_file_request.cc:120-161 | A file is added, and counted, exactly by a saved first chunk of an unknown name; no other file changes. A failed save is answered verbatim. A saved first chunk of a known name gives GENERIC_ERROR; a saved final chunk of an unknown file gives INVALID_DATA. Success, always with SUCCESS, exactly otherwise. A chunk not answered with success changes nothing. A successful final chunk leaves the file complete, a successful non-final first chunk leaves it incomplete, and a later non-final chunk changes nothing |
| PutFile.WholeFileInOneChunk | src/components/application_manager/src/commands/mobile/put_file_request.cc:97-151 | As written, a new file sent whole in one chunk, with no offset or length key among the params, is registered complete, counted, and answered SUCCESS |
| PutFile.NoneLevelResponses | src/components/application_manager/src/commands/mobile/put_file_request.cc:62-70 | An app in HMI_NONE at or above the limit is owed exactly one REJECTED response; any other app is owed none |
| PutFile.PutFileRequest.constructor | src/components/application_manager/src/commands/mobile/put_file_request.cc:43-45 | Nothing has been saved or answered yet |
| PutFile.PutFileRequest.Admit | src/components/application_manager/src/commands/mobile/put_file_request.cc:62-88 | The request goes on exactly when no required field is missing. It owes REJECTED first for an HMI_NONE app at its limit, then INVALID_DATA when a field is missing |
| PutFile.PutFileRequest.SaveChunk | src/components/application_manager/src/commands/mobile/put_file_request.cc:108-161 | Storage is called once with the app name, the data, the path "directory/name" and the offset. The registry, counter and response are those of `ChunkOutcome` |
| PutFile.PutFileRequest.Run | src/components/application_manager/src/commands/mobile/put_file_request.cc:50-162 | One or two responses. No app gives APPLICATION_NOT_REGISTERED without a storage call. A missing field gives INVALID_DATA (after a possible REJECTED) without a storage call or file or counter change. Otherwise the chunk is saved at the offset read as written, and the registry, counter and final response are those of `ChunkOutcome` for the as-written offset and length. The counter grows exactly when a file was added |
| PutFile.PutFileRequest.RunCorrected | src/components/application_manager/src/commands/mobile/put_file_request.cc:97-106 | Corrected: the same handler with the offset and length read from where the request carries them. A chunk carrying a non-zero offset never creates a file |
| DeleteCommand.AsBool | src/components/application_manager/src/commands/delete_command_response.cc:91-92 | Definition, used in the contracts of `DeleteCommandResponse.Run` and `DeletionWithTwoReplies`: a result slot read as a C++ bool, true exactly for a non-zero code |
| DeleteCommand.Erased | src/components/application_manager/src/commands/delete_command_response.cc:105-112 | The menu is gone exactly when the UI result is set or it was already absent; the VR synonyms likewise with the VR result; every other key is kept |
| DeleteCommand.DeleteCommandResponse.constructor | src/components/application_manager/src/commands/delete_command_response.cc:43-45 | The response holds the HMI message and nothing has been sent |
| DeleteCommand.DeleteCommandResponse.Run | src/components/application_manager/src/commands/delete_command_response.cc:50-125 | A failed reply is forwarded unchanged and nothing else changes. An unknown correlation id changes nothing. Otherwise only the slot of function 202 (UI) or 203 (VR) is written and the chain counted down. Before the last reply nothing else happens. On the last reply the chain is discarded and a missing command changes nothing. Otherwise the command is erased per the slots; it is removed with one SUCCESS sent exactly when neither its menu nor its VR synonyms remain, and is kept with nothing sent otherwise. No other application's commands change |
| DeleteCommand.DeletionWithTwoReplies | src/components/application_manager/src/commands/delete_command_response.cc:84-122 | A chain awaiting a UI and a VR reply, answered in either order: the first reply changes no command and sends nothing. The second erases the menu and the VR synonyms by both slots; the command is removed with exactly one SUCCESS sent when both are gone, and kept erased with nothing sent otherwise, whichever subsystem replied first |
| DeleteCommand.TwoSuccessRepliesAsWritten | src/components/application_manager/src/commands/delete_command_response.cc:88-122 | As written, UI and VR both answering SUCCESS (0) erase nothing: a command with a menu or VR synonyms stays catalogued and no response is sent, in either order |
| DeleteCommand.TwoFailureRepliesAsWritten | src/components/application_manager/src/commands/delete_command_response.cc:88-122 | As written, UI and VR both answering the same non-zero code erase both keys: the command is removed and exactly one SUCCESS is sent, in either order |

## Left out

- Logging, `app->UpdateHash()` after a reply and the `return_info` text of the WARNINGS response are left out. They change none of the modelled state.
- The reply's own msg_params, which `on_event` attaches to its response, are not modelled.
- The menu icon and the keyboard properties are modelled by presence only.
- VR help item images are not modelled: a VR help item is its position and its text.
- `SetGlobalProperties.BuildDefaultVrHelp` assumes that every catalogued command's vrCommands array, when present, is non-empty (`Apps.VrSynonyms`). The source reads its first element without a length check (set_global_properties_request.cc:176).
- `MessageHelper::VerifyImageFiles` is a parameter of `SetGlobalProperties.SetGlobalPropertiesRequest.Run`: the verification result.
- `file_system::CreateDirectory` and `ApplicationManagerImpl::SaveBinary` are parameters of `PutFile.PutFileRequest.Run` and `PutFile.PutFileRequest.RunCorrected`: the directory and the storage result. The storage call itself is recorded in `saveCalls`. Writing the bytes is file I/O and is not modelled.
- The profile's `put_file_in_none()` limit is a parameter.
- The `ApplicationManagerImpl::instance()` singleton becomes an explicit `ApplicationManager` or `Application` argument. Event delivery and threading are not modelled; the handlers are sequential.
- The numeric values of the mobile and HMI result enums are not modelled, apart from the order INVALID_ENUM < SUCCESS < UNSUPPORTED_RESOURCE that `std::max` needs.
- `Apps.FromHmi`: the HMI-to-mobile `static_cast` is modelled as relating SUCCESS to SUCCESS only. Any other cast code is kept as `Numbered` with its HMI value and is never identified with a named mobile code. That "never WARNINGS" holds, and that `SetGlobalProperties.Reduce` gives WARNINGS only for a successful reply with TTS UNSUPPORTED_RESOURCE, are facts of this encoding. In the source, an HMI code whose numeric value equals that of a named mobile code (WARNINGS among them) is cast to that code.
- `Apps.ApplicationManager.DecreaseMessageChain`: its body is not part of this model. It is modelled as decrement, completing when the last reply arrives and discarding the chain then, as the comment at delete_command_response.cc:90 implies.
- `DeleteCommand.AsBool`: the type of `ui_response_result()` / `vr_response_result()` is not part of this model. The slot is read as the C++ conversion of the stored code to bool: non-zero is true. A reply whose success flag is false is forwarded before any slot is written (delete_command_response.cc:51-55), so only a reply marked successful fills a slot. If the getter returns the stored code, SUCCESS (0) reads as false, and a key is erased only when a reply marked successful carried a non-zero code. Two SUCCESS replies then erase nothing: the command stays and no response is ever sent (`DeleteCommand.TwoSuccessRepliesAsWritten`). Two replies with the same non-zero code remove the command and answer SUCCESS (`DeleteCommand.TwoFailureRepliesAsWritten`). The model follows the code as written.
- `PutFile.PutFileRequest.Admit` and `PutFile.PutFileRequest.SaveChunk` split the body of `PutFileRequest::Run` so that the as-written and the corrected handler share it; the source has one function.
- `DeleteCommand.DeleteCommandResponse.Run` requires, for a successful reply that completes its chain only, that the chain's application still be registered. On that path the handler dereferences the application it looks up without a null check (delete_command_response.cc:97-105), so an unregistered application is undefined behaviour there. A failed reply, a reply for an unknown chain and a non-final reply never look the application up, and are modelled whatever the application table holds.
- A `MessageChain` entry stands for the chain object's data. The application and command ids are read from the data copied before the slot write; those ids are never changed.
- `SetGlobalProperties.CheckVrHelpItemsOrder` reads an empty VR help list as "first position is not 1", giving false, because `getElement(0)` of an empty array has no position 1. The uint32/int mix of `asUInt`/`asInt` on positions is not modelled: positions are integers.
- `SetGlobalProperties.BuildDefaultVrHelp` does not model the 32-bit `index` counter overflowing, which would need more than 2^31 commands.
- `SetGlobalProperties.BuildDefaultVrHelp`: for an empty commands map the source never indexes `vr_help_items`, so the VR help it stores and sends is a null SmartObject. The model stores `Some([])`, an empty list, instead.
- `SetGlobalProperties.Reduce`: the pair (INVALID_ENUM, INVALID_ENUM) is reached when a reply itself carries the code INVALID_ENUM. The handler then answers failure with the cast of INVALID_ENUM, and the model follows it.
- `PutFile.PutFileRequest.Run`: `offset + binary_data.size()` is compared in unbounded integers. The source adds a uint32_t to a size_t. With a 64-bit size_t that differs only for chunks near 2^64 bytes. With a 32-bit size_t the sum wraps at 2^32, and the model does not wrap it. The system_file flag is read but never used by the source, and is not modelled beyond the message field.
- `PutFile.ChunkOffsetAsWritten` and `PutFile.ChunkLengthAsWritten`: reading a key that is among params but absent from msg_params is not modelled as the SmartObject conversion of a missing value. It is taken as the default (0, or the chunk's size).
- `SetGlobalProperties.SetGlobalPropertiesRequest.IsPendingResponseExist` is modelled as written. Nothing in the handler sets the send flags, so the check compares two constant `false` flags with the receive flags; see Findings.

## Findings

| source | as written | input that shows it | evidently intended | confidence | as-written member | corrected member |
|---|---|---|---|---|---|---|
| src/components/application_manager/src/commands/mobile/put_file_request.cc:97-106 | The offset and length keys are looked up in params but their values are read from msg_params. A request that carries its offset and length in msg_params is therefore read as offset 0 and length equal to the chunk size. | The second chunk of a two-byte file, after the first chunk registered the file: data [7] with msg_params offset 1 and length 2, no offset or length key in params. As written it is saved at offset 0 with length 1 and refused with GENERIC_ERROR, because the file already exists; the file is never completed. | The offset and length keys are tested in the same msg_params the values come from. | not executed | PutFile.ChunkOffsetIgnoredAsWritten | PutFile.PutFileRequest.RunCorrected |
| src/components/application_manager/src/commands/mobile/set_global_properties_request.cc:320-323 | is_ui_send_ and is_tts_send_ are set false by the constructor (lines 49-50) and never set again, so the check reports a response as pending exactly when some reply has arrived. | Right after Run has emitted the UI request, before any reply, the check answers false. | A response is pending when a request was sent whose reply has not arrived. | not executed | SetGlobalProperties.PendingResponseMisreported | SetGlobalProperties.SetGlobalPropertiesRequest.HasPendingResponse |
