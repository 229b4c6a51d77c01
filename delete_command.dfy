/**
 * DeleteCommandResponse: handles one HMI reply (UI or VR) to a DeleteCommand
 * by way of the message chain the request left behind. Only the reply that
 * completes the chain touches the command catalogue, and the command is
 * removed and SUCCESS sent only when neither its menu nor its VR synonyms
 * remain.
 */
module DeleteCommand {
  import opened Wrappers
  import opened Apps

  /** The HMI function ids of the UI and the VR DeleteCommand, fixed in the handler. */
  const UI_CMD_ID: int := 202
  const VR_CMD_ID: int := 203

  /**
   * The HMI response being handled: its params (success flag, function id,
   * correlation id), the HMI code in its msg_params, and the success flag and
   * result code that the handler writes into msg_params before sending it on.
   */
  datatype ResponseMessage = ResponseMessage(
    success: bool,
    functionId: int,
    correlationId: int,
    code: int,
    resultSuccess: Option<bool>,
    resultCode: Option<MobileResult>)

  /** A result slot converted to a C++ bool: any non-zero code reads as true. */
  function AsBool(slot: int): bool {
    slot != 0
  }

  /** The catalogued command after erasing the menu when `resultUi` holds and the VR synonyms when `resultVr` holds. */
  function Erased(command: Command, resultUi: bool, resultVr: bool): (c: Command)
    ensures c.menuParams.None? <==> resultUi || command.menuParams.None?
    ensures c.vrCommands.None? <==> resultVr || command.vrCommands.None?
    ensures !resultUi ==> c.menuParams == command.menuParams
    ensures !resultVr ==> c.vrCommands == command.vrCommands
    ensures c.cmdIcon == command.cmdIcon
  {
    var c := if resultUi then command.(menuParams := None) else command;
    if resultVr then c.(vrCommands := None) else c
  }

  class DeleteCommandResponse {
    var message: ResponseMessage
    /** Messages sent on to the mobile application so far. */
    var sent: seq<ResponseMessage>

    constructor (message: ResponseMessage)
      ensures this.message == message && sent == []
    {
      this.message := message;
      sent := [];
    }

    /**
     * Handles the reply against the chain table and the applications of
     * `manager`. When the reply completes the chain, the chain's application
     * must still be registered: the handler then dereferences it without a
     * check.
     */
    method Run(manager: ApplicationManager)
      requires manager.Valid()
      requires message.success && message.correlationId in manager.chains
               && manager.chains[message.correlationId].count == 1 ==>
        manager.chains[message.correlationId].appId in manager.applications
      modifies this`message, this`sent, manager`chains, manager.applications.Values`commands
      ensures manager.Valid()
      // A failed reply is sent on as it is; nothing else changes.
      ensures !old(message).success ==>
        && sent == old(sent) + [old(message)] && message == old(message)
        && manager.chains == old(manager.chains)
        && forall app :: app in manager.applications.Values ==> app.commands == old(app.commands)
      // A reply for an unknown correlation id is dropped.
      ensures old(message).success && old(message).correlationId !in old(manager.chains) ==>
        && sent == old(sent) && message == old(message)
        && manager.chains == old(manager.chains)
        && forall app :: app in manager.applications.Values ==> app.commands == old(app.commands)
      ensures old(message).success && old(message).correlationId in old(manager.chains) ==>
        var cid := old(message).correlationId;
        var chain := old(manager.chains)[cid];
        var fid := old(message).functionId;
        var uiResult := if fid == UI_CMD_ID then old(message).code else chain.uiResult;
        var vrResult := if fid == VR_CMD_ID then old(message).code else chain.vrResult;
        // Not the last reply: the slot is recorded, one fewer reply is awaited, nothing else happens.
        && (chain.count > 1 ==>
              && manager.chains == old(manager.chains)[cid := chain.(count := chain.count - 1, uiResult := uiResult, vrResult := vrResult)]
              && sent == old(sent) && message == old(message)
              && forall app :: app in manager.applications.Values ==> app.commands == old(app.commands))
        // The last reply: the chain is discarded and the catalogue is updated.
        && (chain.count == 1 ==>
              && manager.chains == old(manager.chains) - {cid}
              && (var app := manager.applications[chain.appId];
                  && (forall other :: other in manager.applications.Values && other != app ==>
                        other.commands == old(other.commands))
                  && (chain.cmdId !in old(app.commands) ==>
                        app.commands == old(app.commands) && sent == old(sent) && message == old(message))
                  && (chain.cmdId in old(app.commands) ==>
                        var erased := Erased(old(app.commands)[chain.cmdId], AsBool(uiResult), AsBool(vrResult));
                        && (erased.menuParams.None? && erased.vrCommands.None? ==>
                              && app.commands == old(app.commands) - {chain.cmdId}
                              && message == old(message).(resultSuccess := Some(true), resultCode := Some(Success))
                              && sent == old(sent) + [message])
                        && (erased.menuParams.Some? || erased.vrCommands.Some? ==>
                              && app.commands == old(app.commands)[chain.cmdId := erased]
                              && sent == old(sent) && message == old(message)))))
    {
      if !message.success {
        sent := sent + [message];
        return;
      }
      var functionId, correlationId, code := message.functionId, message.correlationId, message.code;
      if correlationId !in manager.chains {
        return;
      }
      var chain := manager.chains[correlationId];
      if functionId == UI_CMD_ID {
        chain := chain.(uiResult := code);
      } else if functionId == VR_CMD_ID {
        chain := chain.(vrResult := code);
      }
      manager.chains := manager.chains[correlationId := chain];
      // the slots are read before the chain may be discarded
      var resultUi := AsBool(chain.uiResult);
      var resultVr := AsBool(chain.vrResult);
      var completed := manager.DecreaseMessageChain(correlationId);
      if completed {
        var app := manager.applications[chain.appId];
        if chain.cmdId in app.commands {
          var command := Erased(app.commands[chain.cmdId], resultUi, resultVr);
          app.commands := app.commands[chain.cmdId := command];
          if command.menuParams.None? && command.vrCommands.None? {
            app.RemoveCommand(chain.cmdId);
            message := message.(resultSuccess := Some(true), resultCode := Some(Success));
            sent := sent + [message];
          }
        }
      }
    }
  }

  /**
   * A DeleteCommand awaiting both its UI and its VR reply, answered with
   * `uiCode` and `vrCode` in either order. The first reply changes no command
   * and sends nothing; the second erases by both slots and sends at most one
   * SUCCESS, the same whichever subsystem replied first.
   */
  method DeletionWithTwoReplies(command: Command, uiCode: int, vrCode: int, uiFirst: bool)
    returns (commandsAfterFirst: map<nat, Command>, sentAfterFirst: seq<ResponseMessage>,
             commandsAfterSecond: map<nat, Command>, sentAfterSecond: seq<ResponseMessage>)
    ensures commandsAfterFirst == map[7 := command] && sentAfterFirst == []
    ensures
      var erased := Erased(command, AsBool(uiCode), AsBool(vrCode));
      if erased.menuParams.None? && erased.vrCommands.None? then
        && commandsAfterSecond == map[]
        && |sentAfterSecond| == 1
        && sentAfterSecond[0].resultSuccess == Some(true) && sentAfterSecond[0].resultCode == Some(Success)
      else
        commandsAfterSecond == map[7 := erased] && sentAfterSecond == []
  {
    var app := new Application(1, "app", true, HmiFull);
    app.commands := map[7 := command];
    var manager := new ApplicationManager();
    manager.applications := map[1 := app];
    manager.chains := map[42 := MessageChain(2, -1, -1, 1, 7)];
    var ui := new DeleteCommandResponse(ResponseMessage(true, UI_CMD_ID, 42, uiCode, None, None));
    var vr := new DeleteCommandResponse(ResponseMessage(true, VR_CMD_ID, 42, vrCode, None, None));
    var first, second := if uiFirst then ui else vr, if uiFirst then vr else ui;
    first.Run(manager);
    commandsAfterFirst, sentAfterFirst := app.commands, first.sent;
    second.Run(manager);
    commandsAfterSecond, sentAfterSecond := app.commands, first.sent + second.sent;
  }

  /**
   * Both subsystems answer SUCCESS (0). Read as a bool, each slot is false, so
   * nothing is erased: a command with a menu or VR synonyms stays catalogued
   * and no response is ever sent.
   */
  method TwoSuccessRepliesAsWritten(command: Command, uiFirst: bool)
    returns (commands: map<nat, Command>, sent: seq<ResponseMessage>)
    ensures command.menuParams.Some? || command.vrCommands.Some? ==>
      commands == map[7 := command] && sent == []
  {
    var _, _, commandsAfterSecond, sentAfterSecond := DeletionWithTwoReplies(command, HMI_SUCCESS, HMI_SUCCESS, uiFirst);
    commands, sent := commandsAfterSecond, sentAfterSecond;
  }

  /**
   * Both subsystems answer with the same non-zero code. Each slot reads true,
   * so both keys are erased, the command is removed and SUCCESS is sent.
   */
  method TwoFailureRepliesAsWritten(command: Command, code: int, uiFirst: bool)
    returns (commands: map<nat, Command>, sent: seq<ResponseMessage>)
    requires code != HMI_SUCCESS
    ensures commands == map[]
    ensures |sent| == 1 && sent[0].resultSuccess == Some(true) && sent[0].resultCode == Some(Success)
  {
    var _, _, commandsAfterSecond, sentAfterSecond := DeletionWithTwoReplies(command, code, code, uiFirst);
    commands, sent := commandsAfterSecond, sentAfterSecond;
  }
}
